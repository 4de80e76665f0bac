# rrhh-muni: a verified model of the payroll and HR rules

rrhh-muni is the human-resources and payroll system of a Guatemalan municipality. An
Express server over SQL Server keeps the tables. Employees are paid from budget lines,
called *renglones*. Bonus and discount rules apply to everyone, to a renglón or to an
employee in person. Leave requests (*permisos*) and vacation requests carry an estado. A
monthly payroll (*planilla*) is computed from all of this. React pages list, filter and
edit the same records.

This project restates that rule logic in Dafny and proves what it promises.

- **Tables.** The SQL tables are sequences of rows (`seq` of datatypes), and a query is a
  function over them. An `INNER JOIN` drops a row whose key finds nothing; a `LEFT JOIN`
  gives NULL (`None`). `ORDER BY` is an insertion sort on a text key
  (`Collections.SortBy`); rows with equal keys come out in reverse table order.
- **Routes.** A route whose handler writes to the database is a method of a class that
  owns the tables it writes: `RuleStore`, `PayrollStore`, `VacationStore`, `LeaveStore`,
  `EmployeeStore` and `RenglonStore`. Each answer is an `Outcome`: a value, or an HTTP
  status with the route's message.
- **Pages.** A page is a class whose fields are the React state it keeps
  (`useState`). Each handler is a method that takes the server's answer as a parameter
  and sets the fields the handler sets. What a page derives from its state (counts,
  filtered lists, request bodies) is a function.
- **JavaScript values.** A value of a JSON body is a `JsVal`, with JavaScript
  truthiness. `parseInt`, `parseFloat` and `Number` are written out over text, with NaN
  as `None`.
- **Money.** Amounts are exact `real`s. `Number(x.toFixed(2))` is rounding to the
  nearest cent, halves away from zero (`Numbers.Round2`).
- **Dates.** Dates are `YYYY-MM-DD` strings, the calendar date complete representation
  of ISO 8601 (section 5.2.1.1 of ISO 8601:2004). On them, string order is proved to be
  calendar order (`Dates.StringOrderIsChronological`).

| file | models |
|---|---|
| prelude.dfy, text.dfy, numbers.dfy, collections.dfy, dates.dfy | JavaScript's `\|\|`, `??`, `trim`, `toLowerCase`, `replace(/\D/g, "")`, `path.extname`, `parseInt`, `parseFloat`, `Number`, `toFixed(2)`; `ORDER BY`; calendar dates |
| schema.dfy | the rows of the database tables, and the joins the routes share |
| payroll_engine.dfy | `planillas.routes.js`: employee selection, rule eligibility, per-rule contributions, `POST /calcular` |
| payroll_store.dfy | `planillas.routes.js`: the rows written by `POST /calcular`, and `GET /:id` |
| payroll_view.dfy | `Planillas.jsx`: concept columns, totals, cells, the `anios` range |
| rule_routes.dfy | `bonificaciones.routes.js` and `descuentos.routes.js`, whose logic is the same and is modelled once, set apart by a `RuleKind` |
| rule_page.dfy | `Bonificaciones.jsx` and `Descuentos.jsx`, likewise modelled once |
| vacation_routes.dfy, vacation_page.dfy | `vacaciones.routes.js`, `Vacaciones.jsx` |
| leave_routes.dfy, leave_page.dfy | `permisos.routes.js`, `Permisos.jsx` |
| employee_routes.dfy, employee_page.dfy | `empleados.routes.js`, `Empleados.jsx` |
| renglon_routes.dfy, renglon_page.dfy | `renglones.routes.js`, `Renglones.jsx` |

Where a page sends a request that a route reads, lemmas follow the value across.
`EmployeePage.EditWithoutChangesKeepsRow` shows that opening an employee and saving it
unchanged rewrites the same row. `RenglonPage.EditMirrors` shows that the page's local
edit agrees with the server's `UPDATE`. `VacationPage.CountedDaysReachServer` shows that
the days the page counts are the days the route stores.

## Model

Rows for the bonus and discount files cite the bonus file. The discount lines are named
in the third column.

| member | source | states |
|---|---|---|
| Prelude.OrElse | rrhh-muni/src/pages/Permisos.jsx:72 | `a \|\| b` on text: `a` when it is a non-empty text, `b` otherwise |
| Prelude.NullIfEmpty | BACKEND/src/routes/empleados.routes.js:223-226 | `x \|\| null`: a value exactly when a non-empty text came, and then that text |
| Prelude.Coalesce | rrhh-muni/src/pages/Permisos.jsx:264-265 | `a ?? b`: `a` unless it is missing |
| Text.Trim | BACKEND/src/routes/empleados.routes.js:39 | `trim`: no longer than the input, and neither end of the result is white space |
| Text.TrimCutsBlankEnds | BACKEND/src/routes/empleados.routes.js:39 | `trim` cuts only white space, at the two ends: its result is the input from the end of the leading white space on, followed in the input by white space alone |
| Text.TrimEmptyIffAllSpace | rrhh-muni/src/pages/Renglones.jsx:90 | a field is blank after trimming exactly when it holds only white space |
| Text.TrimIdempotent | rrhh-muni/src/pages/Renglones.jsx:95-98 | trimming a trimmed text changes nothing |
| Text.ToLower | rrhh-muni/src/pages/Empleados.jsx:87-101 | `toLowerCase`: same length, each character lowered, no upper-case letter left |
| Text.ToLowerIdempotent | rrhh-muni/src/pages/Empleados.jsx:101 | lowering a lowered text changes nothing |
| Text.DigitsOnly | BACKEND/src/routes/permisos.routes.js:26 | `replace(/\D/g, "")`: only digits, never longer than the input |
| Text.DigitsOnlyKeepsDigits | BACKEND/src/routes/permisos.routes.js:26 | a text of digits passes the filter unchanged |
| Text.IntToString | rrhh-muni/src/pages/Empleados.jsx:213-215 | `String(n)`: non-empty, digits, preceded by "-" when negative |
| Text.DigitsValueOfNatToString | BACKEND/src/routes/permisos.routes.js:29 | reading a rendered number back gives the number |
| Text.Take | rrhh-muni/src/pages/Permisos.jsx:53 | `slice(0, n)`: the first `n` characters, or all when shorter |
| Text.Extname | BACKEND/src/routes/empleados.routes.js:28 | `path.extname`: a suffix of the name that is empty or starts with its only dot and holds no "/" |
| Numbers.Trunc | BACKEND/src/routes/planillas.routes.js:16 | truncation toward zero, on both signs |
| Numbers.ParseIntStr | BACKEND/src/routes/planillas.routes.js:155-156 | `parseInt(s, 10)` is a number exactly when leading digits follow the white space and sign |
| Numbers.ParseInt | BACKEND/src/routes/bonificaciones.routes.js:287 | `parseInt` of a JSON number that `String` writes in fixed notation (zero, and magnitudes from 10^-6 up to but not including 10^21) is its truncation; of one written with an exponent, its first significant digit with the number's sign; of anything but a number or a text, NaN |
| Numbers.ParseIntOfExponentNotation | BACKEND/src/routes/bonificaciones.routes.js:287 | 10^21 sent as a number does not read back as itself but as a single digit, and 5·10^-7 reads as 5 |
| Numbers.ParseIntOfIntToString | BACKEND/src/routes/planillas.routes.js:372 | reading `String(n)` back gives `n` |
| Numbers.ParseFloatStr | BACKEND/src/routes/bonificaciones.routes.js:52 | `parseFloat` is NaN exactly when no digit stands before or after the point |
| Numbers.ParseFloat | BACKEND/src/routes/bonificaciones.routes.js:52 | `parseFloat` of a JSON number is itself; of anything but a number or a text, NaN |
| Numbers.ParseFloatOfNatToString | BACKEND/src/routes/empleados.routes.js:211-213 | `parseFloat` of a whole number's digits gives that number |
| Numbers.NumberOfNatToString | BACKEND/src/routes/planillas.routes.js:181 | `Number` of a whole number's digits gives that number |
| Numbers.ToNumberStr | BACKEND/src/routes/planillas.routes.js:75 | `Number` of a blank text is 0 |
| Numbers.ToNumber | BACKEND/src/routes/planillas.routes.js:181 | `Number` of a number is itself, of null or a boolean a number, of undefined NaN |
| Numbers.NumberAgreesWithParseFloat | BACKEND/src/routes/planillas.routes.js:181 | `Number` and `parseFloat` agree on every non-blank text `Number` reads |
| Numbers.NumberOrZero | rrhh-muni/src/pages/Planillas.jsx:132-134 | `Number(x) \|\| 0`: NaN becomes 0, every other number stays |
| Numbers.Round2 | BACKEND/src/routes/planillas.routes.js:80 | `Number(x.toFixed(2))`: whole cents, within half a cent of `x` (also at lines 198-201, 222) |
| Numbers.RoundCents | BACKEND/src/routes/planillas.routes.js:198-201 | an amount already in whole cents is unchanged |
| Numbers.Round2Idempotent | BACKEND/src/routes/planillas.routes.js:198-201 | rounding twice rounds once (also at line 222) |
| Numbers.CentsSum | BACKEND/src/routes/planillas.routes.js:198-201 | sums and differences of whole cents are whole cents |
| Collections.SortBy | BACKEND/src/routes/renglones.routes.js:26 | `ORDER BY`: the same rows with the same multiplicity, sorted on the key |
| Collections.SortByMembers | BACKEND/src/routes/renglones.routes.js:26 | sorting keeps exactly the rows it was given |
| Collections.SortByTieReversed | BACKEND/src/routes/renglones.routes.js:26 | two rows with equal keys come out in the reverse of their table order, an order SQL leaves open |
| Collections.SubseqLength | rrhh-muni/src/pages/Empleados.jsx:89 | a subsequence is never longer than its list |
| Dates.DayNumberOrder | rrhh-muni/src/pages/Vacaciones.jsx:159-162 | the day number orders valid dates chronologically, as `fin < inicio` on two `Date`s does |
| Dates.StringOrderIsChronological | rrhh-muni/src/pages/Permisos.jsx:103-107 | on `YYYY-MM-DD` dates string order is calendar order |
| Schema.NombreCompleto | BACKEND/src/routes/permisos.routes.js:46 | `CONCAT(nombres, ' ', apellidos)`: the text starts with the first part (NULL as ""), then one space, then ends with the second |
| Schema.FotoUrl | BACKEND/src/routes/empleados.routes.js:104-106 | a photo URL exactly when a stored name is present, and then the served prefix followed by it |
| Schema.DpiUrl | BACKEND/src/routes/empleados.routes.js:107-109 | a DPI URL exactly when a stored name is present, and then the served prefix followed by it |
| Schema.FindRenglon | BACKEND/src/routes/empleados.routes.js:57 | the renglón found has that id; none only when no renglón has it |
| Schema.DependenciaOf | BACKEND/src/routes/permisos.routes.js:58-59 | the department name through the LEFT JOIN; NULL when the key is NULL or names no department |
| Schema.FindDepartamento | BACKEND/src/routes/empleados.routes.js:95 | the department found has that id; none only when no department has it |
| Schema.RenglonOf | BACKEND/src/routes/empleados.routes.js:57 | the employee's renglón through the INNER JOIN: one with the employee's key, missing when the key is NULL or names none |
| Text.NatToString | BACKEND/src/routes/permisos.routes.js:28-29 | `String(n)` of a natural number: non-empty digits with no leading zero |
| Text.DigitPrefix | BACKEND/src/routes/planillas.routes.js:155-156 | the longest run of leading digits that `parseInt` reads |
| Schema.FindPuesto | BACKEND/src/routes/empleados.routes.js:96 | the post found has that id; none only when no post has it |
| Schema.FindEmpleado | BACKEND/src/routes/empleados.routes.js:153 | the employee found has that id; none only when no employee has it |
| PayrollEngine.ParseRenglonParam | BACKEND/src/routes/planillas.routes.js:157-160 | a missing, falsy or "todos" `id_renglon` means a general run; otherwise the run is for the integer `parseInt` reads, or NaN exactly when `parseInt` finds no digits |
| PayrollEngine.Joined | BACKEND/src/routes/planillas.routes.js:33-34 | the inner join keeps at most one row per employee |
| PayrollEngine.JoinedMembership | BACKEND/src/routes/planillas.routes.js:24-37 | a row is in the join exactly when it is built from an employee whose renglón exists |
| PayrollEngine.OfRenglon | BACKEND/src/routes/planillas.routes.js:19-22 | the WHERE filter keeps exactly the rows of the requested renglón |
| PayrollEngine.Selection | BACKEND/src/routes/planillas.routes.js:24-39 | the employees of a run come ordered by `codigo_empleado`, at most one per employee |
| PayrollEngine.SelectionMembership | BACKEND/src/routes/planillas.routes.js:15-37 | an employee is in the run exactly when its renglón exists and, when the request names a renglón, it is that one; an employee without an existing renglón is never in the run |
| PayrollEngine.SelectionMembers | BACKEND/src/routes/planillas.routes.js:19-36 | the run is the join, filtered on the renglón only when the request names one |
| PayrollEngine.DistinctIds | BACKEND/src/routes/planillas.routes.js:26 | `id_empleado` is a key: two different employee rows have different ids |
| PayrollEngine.Eligible | BACKEND/src/routes/planillas.routes.js:61-66 | the applicable rules are exactly the active rules that target everyone, the given renglón or the given employee, in table order |
| PayrollEngine.AppliesIgnoresScopeFlags | BACKEND/src/routes/planillas.routes.js:61-66 | whether a rule reaches an employee does not depend on its `aplica_por_renglon`/`aplica_individual` flags |
| PayrollEngine.CountMatchesPositive | BACKEND/src/routes/planillas.routes.js:55-60 | an assignment row joins with the rule exactly when that assignment is in the table |
| PayrollEngine.HitsMembers | BACKEND/src/routes/planillas.routes.js:55-60 | a LEFT JOIN gives at least one row: a matched row when there are matches, a NULL-extended row when there are none |
| PayrollEngine.RowsForMembers | BACKEND/src/routes/planillas.routes.js:55-60 | the rows of one rule for one renglón hit are that rule combined with each employee hit |
| PayrollEngine.CrossMembers | BACKEND/src/routes/planillas.routes.js:54-60 | the rows of one rule are every combination of renglón hit and employee hit |
| PayrollEngine.ProjectMembers | BACKEND/src/routes/planillas.routes.js:49-66 | a rule is in the projection exactly when one of its joined rows passes WHERE |
| PayrollEngine.ProjectAppend | BACKEND/src/routes/planillas.routes.js:49-66 | the projection of two row blocks is the projection of the first followed by that of the second |
| PayrollEngine.DistinctMembers | BACKEND/src/routes/planillas.routes.js:49 | `SELECT DISTINCT` keeps every row value and adds none |
| PayrollEngine.DistinctNoDup | BACKEND/src/routes/planillas.routes.js:49 | `SELECT DISTINCT` never returns a row twice |
| PayrollEngine.DistinctAppendBlock | BACKEND/src/routes/planillas.routes.js:49 | appending copies of one row adds one row to the DISTINCT result, or none if it was there already |
| PayrollEngine.JoinRowsRules | BACKEND/src/routes/planillas.routes.js:49-66 | every rule the query returns is a rule of the table |
| PayrollEngine.BlockOfRule | BACKEND/src/routes/planillas.routes.js:54-66 | the joined rows of one rule carry that rule, and some of them pass WHERE exactly when the rule applies |
| PayrollEngine.QueryIsEligibleOn | BACKEND/src/routes/planillas.routes.js:48-67 | over any run of distinct rules, DISTINCT over the joins equals the applicable rules |
| PayrollEngine.QueryIsEligible | BACKEND/src/routes/planillas.routes.js:48-67 | the bonus (discount) query returns each applicable rule exactly once, in table order, however many assignment rows match it, and nothing else (the same code stands at BACKEND/src/routes/planillas.routes.js:101-120) |
| PayrollEngine.EligibleUnique | BACKEND/src/routes/planillas.routes.js:48-67 | the applicable rules have distinct ids |
| PayrollEngine.Contribution | BACKEND/src/routes/planillas.routes.js:73-80 | the amount of a rule is always in whole cents (the same code stands at BACKEND/src/routes/planillas.routes.js:126-133) |
| PayrollEngine.ContributionBounds | BACKEND/src/routes/planillas.routes.js:73-80 | it is within half a cent of the flat value (`tipo` "MONTO") or of base × value / 100 (any other `tipo`) |
| PayrollEngine.ContributionOfMonto | BACKEND/src/routes/planillas.routes.js:74-75 | a flat amount given in cents is paid exactly |
| PayrollEngine.Lineas | BACKEND/src/routes/planillas.routes.js:72-90 | the breakdown has one entry per returned rule, in query order, each carrying the rule's id, name, tipo, value and rounded amount |
| PayrollEngine.SumMontosCents | BACKEND/src/routes/planillas.routes.js:81 | a sum of amounts in cents is in cents |
| PayrollEngine.CalcularReglas | BACKEND/src/routes/planillas.routes.js:43-93 | the breakdown is that of the applicable rules, and the total is their exact sum, in cents (the final `toFixed(2)` changes nothing) (the same code stands at BACKEND/src/routes/planillas.routes.js:96-146) |
| PayrollEngine.SumarReglas | BACKEND/src/routes/planillas.routes.js:69-92 | the loop yields one line per query row and the running total of the rounded amounts |
| PayrollEngine.Pay | BACKEND/src/routes/planillas.routes.js:198-219 | a detail row copies the employee's id, code, name, DPI, renglón and base salary, holds both breakdowns and their totals, gross = round(base + bonuses), net = round(gross − discounts), both in cents |
| PayrollEngine.DetalleOfPay | BACKEND/src/routes/planillas.routes.js:180-219 | the detail of an employee is `Pay` over the breakdowns of its applicable bonuses and discounts |
| PayrollEngine.LineasCents | BACKEND/src/routes/planillas.routes.js:80 | every computed breakdown is in whole cents |
| PayrollEngine.ExactRounding | BACKEND/src/routes/planillas.routes.js:198-201 | with base, bonus total and discount total in cents, rounding loses nothing |
| PayrollEngine.PayExact | BACKEND/src/routes/planillas.routes.js:198-201 | with a base salary in cents, gross = base + bonuses and net = base + bonuses − discounts exactly |
| PayrollEngine.NoRuleApplies | BACKEND/src/routes/planillas.routes.js:48-67 | when no rule applies the query returns no rows |
| PayrollEngine.EligibleEmpty | BACKEND/src/routes/planillas.routes.js:61-66 | when no rule applies there are no applicable rules |
| PayrollEngine.PayWithoutRules | BACKEND/src/routes/planillas.routes.js:180-219 | an employee no rule reaches gets empty breakdowns and gross = net = base rounded to cents |
| PayrollEngine.PayEmpty | BACKEND/src/routes/planillas.routes.js:198-201 | with empty breakdowns gross and net are the base rounded to cents |
| PayrollStore.Detalles | BACKEND/src/routes/planillas.routes.js:180-220 | one detail per selected employee, in selection order |
| PayrollStore.RunDetalle | BACKEND/src/routes/planillas.routes.js:176-220 | a run has exactly one detail per selected employee |
| PayrollStore.DetallesAt | BACKEND/src/routes/planillas.routes.js:180-219 | the i-th detail is the pay of the i-th selected employee, using the request's renglón or else the employee's own |
| PayrollStore.DetallesCents | BACKEND/src/routes/planillas.routes.js:204 | the sum of net salaries is in cents, so the final `toFixed(2)` of `total_monto` changes nothing (also at line 222) |
| PayrollStore.DetallesNetos | BACKEND/src/routes/planillas.routes.js:198-201 | every net salary of a run is in cents |
| PayrollStore.SumNetosCents | BACKEND/src/routes/planillas.routes.js:204 | a sum of net salaries in cents is in cents and unchanged by rounding (also at line 222) |
| PayrollStore.Descripcion | BACKEND/src/routes/planillas.routes.js:229-234 | the header description names the renglón exactly when the parsed id is truthy, and is "Planilla general …" otherwise |
| PayrollStore.DescripcionNamesPeriod | BACKEND/src/routes/planillas.routes.js:229-234 | the description ends in a blank and `mes/anio`; a renglón run names the parsed id right after "Planilla renglón ", followed by a blank |
| PayrollStore.DetalleRows | BACKEND/src/routes/planillas.routes.js:254-276 | one `PlanillaDetalle` row per detail, with consecutive identity values and the run's amounts |
| PayrollStore.LineaRows | BACKEND/src/routes/planillas.routes.js:282-317 | one breakdown row per bonus (discount) entry, carrying the detail id, rule id, name and amount |
| PayrollStore.LinesOf | BACKEND/src/routes/planillas.routes.js:282 | the bonuses (discounts) of each detail, in order (also at line 301) |
| PayrollStore.ConceptosDe | BACKEND/src/routes/planillas.routes.js:418-433 | the `FOR JSON` subquery reads at most the stored rows of one detail |
| PayrollStore.ConceptosOf | BACKEND/src/routes/planillas.routes.js:418-433 | a stored entry reads back as its name and amount |
| PayrollStore.ConceptosDeAppend | BACKEND/src/routes/planillas.routes.js:418-433 | the subquery over two row blocks is the concatenation of its results |
| PayrollStore.ConceptosDeOther | BACKEND/src/routes/planillas.routes.js:423 | rows of other details contribute nothing (also at line 431) |
| PayrollStore.ConceptosDeOwn | BACKEND/src/routes/planillas.routes.js:282-298 | the rows stored for a detail read back as its entries, in order (also at lines 418-425) |
| PayrollStore.BreakdownRowsIds | BACKEND/src/routes/planillas.routes.js:278-279 | the breakdown rows of a run carry the detail ids the run allocated |
| PayrollStore.BreakdownOf | BACKEND/src/routes/planillas.routes.js:254-318 | within a run's breakdown rows, those of its i-th detail are exactly that detail's entries (also at lines 418-433) |
| PayrollStore.BreakdownLast | BACKEND/src/routes/planillas.routes.js:254-318 | the rows of the last detail read back as its entries |
| PayrollStore.ConceptosDeAfter | BACKEND/src/routes/planillas.routes.js:418-433 | rows stored before a detail existed do not show in its breakdown |
| PayrollStore.BreakdownEarlier | BACKEND/src/routes/planillas.routes.js:254-318 | storing a later detail leaves an earlier detail's breakdown as it was |
| PayrollStore.ConceptosDeBefore | BACKEND/src/routes/planillas.routes.js:418-433 | rows of other details appended later do not change a breakdown |
| PayrollStore.BreakdownRowsLast | BACKEND/src/routes/planillas.routes.js:254-318 | the breakdown rows of a run are those of all but its last detail followed by those of the last |
| PayrollStore.ConceptosDeAppendNone | BACKEND/src/routes/planillas.routes.js:418-433 | appending rows of other details does not change a breakdown |
| PayrollStore.ConceptosDeNoneAppend | BACKEND/src/routes/planillas.routes.js:418-433 | prepending rows of other details does not change a breakdown |
| PayrollStore.EarlierDetails | BACKEND/src/routes/planillas.routes.js:278-279 | a detail id not yet allocated has no stored breakdown |
| PayrollStore.StoredBreakdown | BACKEND/src/routes/planillas.routes.js:254-318 | reading back the i-th detail of a run gives exactly the names and amounts computed for it, whatever was stored before (also at lines 418-433) |
| PayrollStore.DetallesDe | BACKEND/src/routes/planillas.routes.js:437 | exactly the detail rows of the given planilla |
| PayrollStore.StoredDetalles | BACKEND/src/routes/planillas.routes.js:254-276 | the details stored for a new planilla read back as exactly the run's rows (also at line 437) |
| PayrollStore.OldDetallesHidden | BACKEND/src/routes/planillas.routes.js:437 | details of older planillas are not read for a new one |
| PayrollStore.FindPlanilla | BACKEND/src/routes/planillas.routes.js:377-398 | the header found has the requested id; none is found exactly when no header has it |
| PayrollStore.StoredHeader | BACKEND/src/routes/planillas.routes.js:239-251 | a header stored with the next identity value is the one `GET /:id` finds (also at lines 377-398) |
| PayrollStore.CalcularEmpleado | BACKEND/src/routes/planillas.routes.js:180-219 | the loop body's record is the employee's specified pay |
| PayrollStore.EmpleadoPay | BACKEND/src/routes/planillas.routes.js:184-219 | the record built from the two rule queries is the specified detail |
| PayrollStore.PayOfTotals | BACKEND/src/routes/planillas.routes.js:198-219 | the record built from the totals is `Pay` |
| PayrollStore.CalcularDetalle | BACKEND/src/routes/planillas.routes.js:176-222 | the loop yields every selected employee's pay in order, `totalEmpleados` is their number, and `totalMonto` is the exact sum of the net salaries |
| PayrollStore.DetallesSnoc | BACKEND/src/routes/planillas.routes.js:180-220 | one more loop iteration appends the next employee's pay |
| PayrollStore.SumNetosSnoc | BACKEND/src/routes/planillas.routes.js:204 | the running total grows by the new net salary |
| PayrollStore.RowsSnoc | BACKEND/src/routes/planillas.routes.js:254-318 | storing one more detail appends its row and its breakdown rows |
| PayrollStore.BreakdownSnoc | BACKEND/src/routes/planillas.routes.js:282-317 | storing one more detail appends its bonus (discount) rows |
| PayrollStore.WithDetallesSnoc | BACKEND/src/routes/planillas.routes.js:254-318 | the tables after storing one more detail are those after one more iteration |
| PayrollStore.PayrollStore.constructor | BACKEND/src/routes/planillas.routes.js:239-276 | the tables start empty, with identity values starting at 1 |
| PayrollStore.PayrollStore.Calcular | BACKEND/src/routes/planillas.routes.js:151-335 | 400 exactly when the selection is empty, with nothing stored; 500 exactly when it is not empty and the renglón, month or year is NaN, with nothing stored; otherwise the run holds every selected employee's pay, `total_empleados` = number of details, `total_monto` = round2(sum of net), estado "GENERADA", the next planilla id, and the tables gain exactly its header, details and breakdowns |
| PayrollStore.PayrollStore.GuardarCabecera | BACKEND/src/routes/planillas.routes.js:224-251 | the header row is appended with the next identity value |
| PayrollStore.PayrollStore.GuardarDetalle | BACKEND/src/routes/planillas.routes.js:253-318 | every detail is appended with its breakdowns |
| PayrollStore.PayrollStore.GuardarUno | BACKEND/src/routes/planillas.routes.js:254-317 | one detail row, then its bonus and discount rows |
| PayrollStore.PayrollStore.InsertLineas | BACKEND/src/routes/planillas.routes.js:282-317 | the bonus (discount) rows of one detail are appended and the other table is unchanged |
| PayrollStore.PayrollStore.GetById | BACKEND/src/routes/planillas.routes.js:368-474 | 400 "id_planilla inválido" exactly when `parseInt` of the id fails; 404 exactly when no header has the id; otherwise the header found, with the code of the renglón its stored id finds (NULL exactly when there is none), and the details of that planilla ordered by employee code, each with its stored breakdowns and carrying the code, name, DPI and renglón code of its own joined employee, with every detail whose joins succeed present |
| PayrollStore.PayrollStore.JoinDetalles | BACKEND/src/routes/planillas.routes.js:406-437 | the `INNER JOIN`s: every joined row is a detail of the list with its own breakdowns and exactly the columns of the employee and renglón its keys find; every detail whose joins succeed is present |
| PayrollStore.StoredRun | BACKEND/src/routes/planillas.routes.js:151-335 | after a run is stored, `GET /:id` finds its header, its detail rows, and for each detail the breakdowns it computed (also at lines 368-474) |
| PayrollStore.StoredRunBonos | BACKEND/src/routes/planillas.routes.js:282-298 | the stored bonuses of each detail read back as computed (also at lines 418-425) |
| PayrollStore.StoredRunDescuentos | BACKEND/src/routes/planillas.routes.js:301-317 | the stored discounts of each detail read back as computed (also at lines 426-433) |
| PayrollView.DedupMembers | rrhh-muni/src/pages/Planillas.jsx:86-92 | the `Set` holds exactly the names it started with and the names added |
| PayrollView.DedupNoDup | rrhh-muni/src/pages/Planillas.jsx:86-92 | no name is listed twice |
| PayrollView.DedupPrefix | rrhh-muni/src/pages/Planillas.jsx:86-92 | adding names never moves the names already listed (insertion order) |
| PayrollView.DedupAppend | rrhh-muni/src/pages/Planillas.jsx:87-91 | adding two batches of names is adding their concatenation |
| PayrollView.NamesOfMembers | rrhh-muni/src/pages/Planillas.jsx:87-91 | a column name is a truthy `nombre` of some entry of some row (the same code stands at rrhh-muni/src/pages/Planillas.jsx:98-102) |
| PayrollView.NamesMembers | rrhh-muni/src/pages/Planillas.jsx:88-90 | the names one row contributes are its entries' truthy names |
| PayrollView.AddNames | rrhh-muni/src/pages/Planillas.jsx:88-90 | the inner `forEach` adds one row's truthy names to the ordered set |
| PayrollView.Conceptos | rrhh-muni/src/pages/Planillas.jsx:84-104 | with no `detalle` there are no columns; otherwise the distinct truthy names of all rows, in first-seen order |
| PayrollView.AddN | rrhh-muni/src/pages/Planillas.jsx:144-149 | JavaScript `+` on numbers: NaN when either side is NaN |
| PayrollView.SubN | rrhh-muni/src/pages/Planillas.jsx:142 | JavaScript `-` on numbers: NaN when either side is NaN |
| PayrollView.NumOr0 | rrhh-muni/src/pages/Planillas.jsx:132-134 | `Number(x \|\| 0)` is 0 for a falsy value and `Number(x)` otherwise (also at line 154) |
| PayrollView.ColumnOf | rrhh-muni/src/pages/Planillas.jsx:131-149 | one amount per row for a column, with gross and net defaulted from base, bonuses and discounts when undefined |
| PayrollView.SumNaN | rrhh-muni/src/pages/Planillas.jsx:144-149 | a column total is NaN exactly when one of its amounts is |
| PayrollView.SumPointwise | rrhh-muni/src/pages/Planillas.jsx:135-149 | summing per-row sums (differences) equals adding (subtracting) the column sums |
| PayrollView.TotalsSnoc | rrhh-muni/src/pages/Planillas.jsx:144-149 | one more row adds 1 to `empleados` and its amounts to each total |
| PayrollView.ColumnSumNaN | rrhh-muni/src/pages/Planillas.jsx:144-149 | a column total is NaN exactly when some row's amount is |
| PayrollView.ColumnSumSnoc | rrhh-muni/src/pages/Planillas.jsx:144-149 | one more row adds its amount to the column total |
| PayrollView.DefaultedTotals | rrhh-muni/src/pages/Planillas.jsx:135-149 | when no row carries gross or net, total gross = total base + total bonuses and total net = total gross − total discounts |
| PayrollView.ConceptFoldAppend | rrhh-muni/src/pages/Planillas.jsx:152-163 | adding two batches of entries to the concept totals is adding their concatenation |
| PayrollView.ConceptKeys | rrhh-muni/src/pages/Planillas.jsx:152-156 | a concept has a total exactly when some entry carries that name (a missing name is keyed "null" as JSON would) |
| PayrollView.ConceptTotal | rrhh-muni/src/pages/Planillas.jsx:151-163 | with numeric amounts, a concept's total is the sum of `monto` over the entries with that name, 0 when there is none |
| PayrollView.ConceptFoldValues | rrhh-muni/src/pages/Planillas.jsx:152-156 | with numeric amounts no concept total is NaN |
| PayrollView.ConceptFoldSnoc | rrhh-muni/src/pages/Planillas.jsx:152-156 | one more entry is added to its concept's total |
| PayrollView.ConceptsSnoc | rrhh-muni/src/pages/Planillas.jsx:151-163 | one more row adds its entries to the concept totals |
| PayrollView.AddConceptos | rrhh-muni/src/pages/Planillas.jsx:152-156 | the inner `forEach` adds each entry's `monto` to its concept |
| PayrollView.AddRow | rrhh-muni/src/pages/Planillas.jsx:132-149 | the outer `forEach` body counts the row and adds each of its amounts |
| PayrollView.Totals | rrhh-muni/src/pages/Planillas.jsx:109-167 | with no `detalle` every total is 0 and both concept maps are empty; otherwise the totals and per-concept totals of all rows |
| PayrollView.Cell | rrhh-muni/src/pages/Planillas.jsx:464-466 | a cell shows the amount of an entry with that name, or 0 |
| PayrollView.CellIsFirstMatch | rrhh-muni/src/pages/Planillas.jsx:465-466 | the cell shows the first matching entry's amount (the same code stands at rrhh-muni/src/pages/Planillas.jsx:479-482) |
| PayrollView.CellMissing | rrhh-muni/src/pages/Planillas.jsx:466 | a row without the concept shows 0 (also at line 482) |
| PayrollView.Anios | rrhh-muni/src/pages/Planillas.jsx:252-255 | the year options are exactly 2020 to 2035, ascending |
| RuleRoutes.Encode | BACKEND/src/routes/bonificaciones.routes.js:59-65 | exactly one flag is set, the one `destino` names; any other `destino` sets none (the same code stands at BACKEND/src/routes/bonificaciones.routes.js:141-147 and BACKEND/src/routes/descuentos.routes.js:61-67) |
| RuleRoutes.Decode | BACKEND/src/routes/bonificaciones.routes.js:22-27 | the decoded `destino` is the first flag set in the order todos, renglon, individual, and "otros" when none is (the same code stands at BACKEND/src/routes/bonificaciones.routes.js:94-99 and BACKEND/src/routes/descuentos.routes.js:23-28) |
| RuleRoutes.DecodeEncode | BACKEND/src/routes/bonificaciones.routes.js:22-27 | storing a rule then listing it gives back a `destino` of "todos", "renglon" or "individual"; any other reads back as "otros" (also at lines 59-65) |
| RuleRoutes.EncodeDecode | BACKEND/src/routes/bonificaciones.routes.js:22-27 | re-saving a rule with its listed `destino` keeps its flags exactly when at most one of them is set (also at lines 141-147) |
| RuleRoutes.ActivoBit | BACKEND/src/routes/bonificaciones.routes.js:138-139 | the stored bit is 1 exactly when `activo` is truthy, booleans or not (the same code stands at BACKEND/src/routes/bonificaciones.routes.js:194-195) |
| RuleRoutes.Validate | BACKEND/src/routes/bonificaciones.routes.js:44-71 | 400 "Nombre, tipo, valor y destino son obligatorios" exactly when one of the four is falsy; else 400 "El valor debe ser un número mayor a 0" exactly when `parseFloat(valor)` is NaN or ≤ 0; else the fields with `descripcion \|\| null` and the flags of `destino` (the same code stands at BACKEND/src/routes/bonificaciones.routes.js:123-136 and BACKEND/src/routes/descuentos.routes.js:48-59) |
| RuleRoutes.ValidNumber | BACKEND/src/routes/bonificaciones.routes.js:46-57 | a positive number `valor` with the other fields present always passes, with that value |
| RuleRoutes.ViewOf | BACKEND/src/routes/bonificaciones.routes.js:12-27 | a listed rule carries its columns and the `destino` decoded from its flags |
| RuleRoutes.Views | BACKEND/src/routes/bonificaciones.routes.js:11-30 | the listing shows every rule, each as `ViewOf` |
| RuleRoutes.CreatedView | BACKEND/src/routes/bonificaciones.routes.js:76-104 | a created rule is active and lists with the `destino` it was created with, or "otros" |
| RuleRoutes.UpdateWhere | BACKEND/src/routes/bonificaciones.routes.js:160-172 | the rules with that id get every column rewritten, `activo` included; every other rule is unchanged |
| RuleRoutes.SetActivoWhere | BACKEND/src/routes/bonificaciones.routes.js:201-205 | only the `activo` column of the rules with that id changes |
| RuleRoutes.DeleteReglaMembers | BACKEND/src/routes/bonificaciones.routes.js:237-238 | the delete keeps exactly the other rules |
| RuleRoutes.DeleteAsignacionesMembers | BACKEND/src/routes/bonificaciones.routes.js:230-235 | the delete keeps exactly the assignments of other rules |
| RuleRoutes.DeleteReglaUnique | BACKEND/src/routes/bonificaciones.routes.js:237-238 | deleting keeps ids distinct and adds no rule |
| RuleRoutes.ParsedInts | BACKEND/src/routes/bonificaciones.routes.js:285-289 | at most one id per value sent |
| RuleRoutes.ParsedIntsOfNumbers | BACKEND/src/routes/bonificaciones.routes.js:285-289 | every integer id below 10^21 in magnitude sent as a number is kept, in order |
| RuleRoutes.HugeIdNotKept | BACKEND/src/routes/bonificaciones.routes.js:285-289 | an integer of 10^21 or more in magnitude sent as a number gives one id, and not itself |
| RuleRoutes.ParsedIntsFrom | BACKEND/src/routes/bonificaciones.routes.js:285-289 | an id is kept exactly when it is `parseInt` of one of the values sent (the same code stands at BACKEND/src/routes/bonificaciones.routes.js:357-361) |
| RuleRoutes.AsignacionesDe | BACKEND/src/routes/bonificaciones.routes.js:298-306 | the insert adds one `(id, k)` row per parsed id, in order |
| RuleRoutes.DestinosDeAppend | BACKEND/src/routes/bonificaciones.routes.js:264-266 | the ids assigned in two row blocks are those of the first then those of the second |
| RuleRoutes.DestinosDeDeleted | BACKEND/src/routes/bonificaciones.routes.js:291-296 | after the delete the rule has no assignment and other rules keep theirs |
| RuleRoutes.DestinosDeNew | BACKEND/src/routes/bonificaciones.routes.js:298-306 | the inserted rows assign exactly the parsed ids to the rule |
| RuleRoutes.ReplacedDestinos | BACKEND/src/routes/bonificaciones.routes.js:277-314 | after replacing, the rule is assigned exactly the parsed ids in the order sent, and every other rule keeps its assignments (the same code stands at BACKEND/src/routes/bonificaciones.routes.js:349-386 and BACKEND/src/routes/descuentos.routes.js:288-311) |
| RuleRoutes.EmpleadosAsignados | BACKEND/src/routes/bonificaciones.routes.js:330-339 | every listed employee is assigned to the rule, and its row holds exactly the id, code, name, DPI and renglón code of the employee and renglón the joins find |
| RuleRoutes.EmpleadosAsignadosComplete | BACKEND/src/routes/bonificaciones.routes.js:336-339 | every assigned employee whose employee and renglón rows exist is listed |
| RuleRoutes.RuleStore.constructor | BACKEND/src/routes/bonificaciones.routes.js:9-30 | the tables start empty |
| RuleRoutes.RuleStore.Listado | BACKEND/src/routes/bonificaciones.routes.js:9-32 | `GET /` lists every rule once with its decoded `destino`, ordered by `nombre` |
| RuleRoutes.RuleStore.Crear | BACKEND/src/routes/bonificaciones.routes.js:42-109 | an invalid body fails with the first failing check and changes nothing; a valid one is inserted active under the next id and returned with its decoded `destino` |
| RuleRoutes.RuleStore.Editar | BACKEND/src/routes/bonificaciones.routes.js:114-179 | 400 "id … inválido" for a non-integer id, then the body checks, each leaving the table as it was; otherwise every column of that rule, `activo` included, and only that rule, is rewritten (the same code stands at BACKEND/src/routes/descuentos.routes.js:117-183) |
| RuleRoutes.RuleStore.CambiarActivo | BACKEND/src/routes/bonificaciones.routes.js:184-212 | 400 for a non-integer id; otherwise only `activo` of that rule changes, to the bit of the value sent |
| RuleRoutes.RuleStore.Eliminar | BACKEND/src/routes/bonificaciones.routes.js:217-246 | 400 for a non-integer id with nothing changed; otherwise the rule's employee and renglón assignments and the rule are removed, and nothing else (the same code stands at BACKEND/src/routes/descuentos.routes.js:222-251) |
| RuleRoutes.RuleStore.Remove | BACKEND/src/routes/bonificaciones.routes.js:229-239 | the three deletes: the rule leaves its table and its assignments leave theirs; nothing else changes (the same code stands at BACKEND/src/routes/descuentos.routes.js:234-243) |
| RuleRoutes.RuleStore.Asignados | BACKEND/src/routes/bonificaciones.routes.js:253-275 | 400 exactly for a non-integer id; otherwise the renglón (employee) ids assigned to the rule |
| RuleRoutes.RuleStore.EmpleadosDe | BACKEND/src/routes/bonificaciones.routes.js:319-347 | 400 exactly for a non-integer id; otherwise every listed employee is assigned and carries the columns of its own joined rows, and every assigned employee whose joins succeed is listed |
| RuleRoutes.RuleStore.Reemplazar | BACKEND/src/routes/bonificaciones.routes.js:277-314 | 400 for a non-integer id with nothing changed; otherwise the rule's renglón (employee) assignments become exactly the parsed ids, a missing list clearing them, and the other table is unchanged (the same code stands at BACKEND/src/routes/bonificaciones.routes.js:349-386) |
| RuleRoutes.RuleStore.Reasignar | BACKEND/src/routes/bonificaciones.routes.js:291-307 | the rule's rows of the one table are deleted and the given ids appended after the others, in order; the other table is unchanged |
| RuleRoutes.RuleStore.InsertarAsignaciones | BACKEND/src/routes/bonificaciones.routes.js:298-306 | the rows of the parsed ids are appended to one table and the other is unchanged (the same code stands at BACKEND/src/routes/bonificaciones.routes.js:370-378) |
| RulePage.ResumenOf | rrhh-muni/src/pages/Bonificaciones.jsx:68-73 | `total` is the number of rules, `activas` the truthy-`activo` ones, and `inactivas = total − activas` is exactly the number of inactive ones, between 0 and `total` (the same code stands at rrhh-muni/src/pages/Descuentos.jsx:68-73) |
| RulePage.ActivasPlusInactivas | rrhh-muni/src/pages/Bonificaciones.jsx:69-71 | active plus inactive rules are all the rules |
| RulePage.EditDestinoOfListing | rrhh-muni/src/pages/Bonificaciones.jsx:83-89 | for a rule as the listing sends it, the edit form opens with the `destino` the server decoded (the route side is BACKEND/src/routes/bonificaciones.routes.js:22-27) |
| RulePage.EditDestinoOtros | rrhh-muni/src/pages/Bonificaciones.jsx:85-89 | a rule listed as "otros" is given a `destino` from its flags with precedence todos > renglon > individual (the same code stands at rrhh-muni/src/pages/Descuentos.jsx:83-89) |
| RulePage.EditForm | rrhh-muni/src/pages/Bonificaciones.jsx:91-99 | the form holds the rule's id, its recovered `destino` and `descripcion \|\| ""` |
| RulePage.SubmitRequest | rrhh-muni/src/pages/Bonificaciones.jsx:176-197 | refused with the name message exactly when the trimmed name is empty; then refused with the value message exactly when `valor` is empty or `Number(valor) ≤ 0`; otherwise a PUT to the rule's id when editing or a POST, with the trimmed name and `descripcion \|\| null` (the same code stands at rrhh-muni/src/pages/Descuentos.jsx:176-197) |
| RulePage.EditTargetsRule | rrhh-muni/src/pages/Bonificaciones.jsx:184-187 | the id the route reads back from an edit's path is the id of the rule edited (the route side is BACKEND/src/routes/bonificaciones.routes.js:116-117) |
| RulePage.NaNPassesPage | rrhh-muni/src/pages/Bonificaciones.jsx:180 | a `valor` that `Number` reads as NaN passes the page's check, and the server refuses it when `parseFloat` finds no number either (the route side is BACKEND/src/routes/bonificaciones.routes.js:52-57) |
| RulePage.NaNText | rrhh-muni/src/pages/Bonificaciones.jsx:180 | such a value exists ("x") |
| RulePage.SubmittedIsValid | rrhh-muni/src/pages/Bonificaciones.jsx:176-197 | a form the page accepts with a numeric `valor` passes the server's checks with the same amount, trimmed name and the flags of its `destino` (the route side is BACKEND/src/routes/bonificaciones.routes.js:44-65) |
| RulePage.EditSaved | rrhh-muni/src/pages/Bonificaciones.jsx:215-230 | after an edit the rule with that id shows the sent values and every other rule is unchanged |
| RulePage.FindRule | rrhh-muni/src/pages/Bonificaciones.jsx:117 | `find` returns a listed rule with that id, or nothing when no listed rule has it |
| RulePage.SetActivo | rrhh-muni/src/pages/Bonificaciones.jsx:132-136 | only the rules with that id get the new `activo` |
| RulePage.FoundIsAt | rrhh-muni/src/pages/Bonificaciones.jsx:117 | with distinct ids, `find` returns the rule at that id's position |
| RulePage.ToggleTwice | rrhh-muni/src/pages/Bonificaciones.jsx:115-136 | toggling twice restores every rule's active state and changes nothing else |
| RulePage.WithoutMembers | rrhh-muni/src/pages/Bonificaciones.jsx:162 | deleting keeps exactly the rules with other ids |
| RulePage.WithoutAbsent | rrhh-muni/src/pages/Bonificaciones.jsx:162 | deleting an unknown id leaves the list as it was |
| RulePage.RemoveIdMembers | rrhh-muni/src/pages/Bonificaciones.jsx:294 | removing a renglón id keeps exactly the other ids |
| RulePage.RemoveIdAbsent | rrhh-muni/src/pages/Bonificaciones.jsx:294 | removing an absent id leaves the selection as it was |
| RulePage.ToggleSelMembers | rrhh-muni/src/pages/Bonificaciones.jsx:291-297 | toggling flips the membership of that id and of no other (the same code stands at rrhh-muni/src/pages/Descuentos.jsx:291-297) |
| RulePage.ToggleSelTwice | rrhh-muni/src/pages/Bonificaciones.jsx:291-297 | toggling twice restores the membership, and when the id was absent the list itself |
| RulePage.AddEmpleado | rrhh-muni/src/pages/Bonificaciones.jsx:316-323 | adding never creates a duplicate employee id, and the employee is selected afterwards |
| RulePage.AddEmpleadoIdempotent | rrhh-muni/src/pages/Bonificaciones.jsx:316-323 | adding the same employee twice is adding it once |
| RulePage.RemoveEmpleadoMembers | rrhh-muni/src/pages/Bonificaciones.jsx:325-329 | removing deletes that employee and keeps the others |
| RulePage.IdsEmpleados | rrhh-muni/src/pages/Bonificaciones.jsx:353 | the ids sent are the selected employees' ids, in order |
| RulePage.AsJson | rrhh-muni/src/pages/Bonificaciones.jsx:359-361 | the ids travel as JSON numbers |
| RulePage.SavedSelection | rrhh-muni/src/pages/Bonificaciones.jsx:353-361 | the route's parsing gives the page's ids back unchanged and in order, for ids below 10^21 in magnitude (the route side is BACKEND/src/routes/bonificaciones.routes.js:356-361) |
| RulePage.SearchTermReachesRoute | rrhh-muni/src/pages/Bonificaciones.jsx:300-307 | the trimmed term the page sends finds exactly what the typed text finds on `GET /api/empleados/buscar`, and a blank text would find nothing |
| RulePage.RulePageState.constructor | rrhh-muni/src/pages/Bonificaciones.jsx:24-39 | the page starts with the loaded rules, the initial form, no modal and no selection |
| RulePage.RulePageState.OpenNew | rrhh-muni/src/pages/Bonificaciones.jsx:78-81 | `openNewModal` resets the form and opens the modal |
| RulePage.RulePageState.OpenEdit | rrhh-muni/src/pages/Bonificaciones.jsx:83-101 | `openEditModal` fills the form from the rule and opens the modal |
| RulePage.RulePageState.ToggleActivo | rrhh-muni/src/pages/Bonificaciones.jsx:115-141 | with no rule of that id nothing is sent and nothing changes; otherwise the negated state is sent and, when accepted, stored for that id only |
| RulePage.RulePageState.Delete | rrhh-muni/src/pages/Bonificaciones.jsx:146-167 | only a confirmed delete that the server accepts removes the rules with that id |
| RulePage.RulePageState.Submit | rrhh-muni/src/pages/Bonificaciones.jsx:172-246 | a refused form or a failed request changes nothing; after a save a new rule is appended as returned, an edited one is rewritten in place, and the modal is closed with the form reset |
| RulePage.RulePageState.Close | rrhh-muni/src/pages/Bonificaciones.jsx:212-239 | the listing becomes the one saved, and the modal closes with the form back to its initial values |
| RulePage.RulePageState.OpenAssign | rrhh-muni/src/pages/Bonificaciones.jsx:251-283 | a "todos" rule never opens the dialog and changes nothing; otherwise the dialog opens on that rule with the returned renglón or employee assignments and the earlier search results cleared |
| RulePage.RulePageState.ToggleRenglon | rrhh-muni/src/pages/Bonificaciones.jsx:291-297 | the selection becomes `ToggleSel` of the old one |
| RulePage.RulePageState.BuscarEmpleados | rrhh-muni/src/pages/Bonificaciones.jsx:300-315 | a blank text sends nothing and keeps the results; otherwise exactly the trimmed, non-blank term is sent and the results become the answer, none on an error answer |
| RulePage.RulePageState.AgregarEmpleado | rrhh-muni/src/pages/Bonificaciones.jsx:316-323 | the selection becomes `AddEmpleado` of the old one |
| RulePage.RulePageState.QuitarEmpleado | rrhh-muni/src/pages/Bonificaciones.jsx:325-329 | the selection becomes `RemoveEmpleado` of the old one |
| RulePage.RulePageState.IdsAEnviar | rrhh-muni/src/pages/Bonificaciones.jsx:331-369 | nothing is sent without a selected rule; the renglón ids in renglón mode; the employee ids in individual mode |
| VacationRoutes.Listado | BACKEND/src/routes/vacaciones.routes.js:14-47 | the inner join lists at most one row per request |
| VacationRoutes.ListadoRow | BACKEND/src/routes/vacaciones.routes.js:27-29 | a request adds at most one row, none when its employee is missing |
| VacationRoutes.ListadoMembers | BACKEND/src/routes/vacaciones.routes.js:14-47 | a row is listed exactly when it is some request joined with its employee's DPI and name |
| VacationRoutes.FirstByDpi | BACKEND/src/routes/vacaciones.routes.js:83-100 | the employee found has that DPI; none is found exactly when no employee has it |
| VacationRoutes.DiasInt | BACKEND/src/routes/vacaciones.routes.js:105 | `parseInt(dias) \|\| 0`: the parsed integer, or 0 when `parseInt` fails |
| VacationRoutes.NewVacacion | BACKEND/src/routes/vacaciones.routes.js:71-137 | 400 "Faltan datos obligatorios…" exactly when `dpi`, `fechaInicio`, `fechaFin` or `dias` is falsy; then 400 "No se encontró un empleado con ese DPI." exactly when no employee has the DPI; then 500 when a date, read as `YYYY-MM-DD`, is not a date from year 0001 on that the `date` column holds; otherwise the row of that employee with the sent dates, `parseInt(dias) \|\| 0`, `motivo \|\| null`, today as `fecha_solicitud` and estado "Pendiente" |
| VacationRoutes.CreatedView | BACKEND/src/routes/vacaciones.routes.js:142-155 | the 201 body is the new row with its employee's DPI, estado "Pendiente" and `motivo \|\| ""` |
| VacationRoutes.SetEstado | BACKEND/src/routes/vacaciones.routes.js:186-194 | only `estado` of the rows with that id changes |
| VacationRoutes.AnioParam | BACKEND/src/routes/vacaciones.routes.js:212 | the year is `parseInt(anio)` when that is a nonzero integer, and the current year otherwise |
| VacationRoutes.DisponibleOf | BACKEND/src/routes/vacaciones.routes.js:220-238 | available days = 20 − the days of the employee's requests that start or end in the year, 20 with none |
| VacationRoutes.Activos | BACKEND/src/routes/vacaciones.routes.js:239 | exactly the employees with estado 'ACTIVO' |
| VacationRoutes.DisponiblesOf | BACKEND/src/routes/vacaciones.routes.js:229-238 | one row per employee given |
| VacationRoutes.Disponibles | BACKEND/src/routes/vacaciones.routes.js:219-240 | one row per ACTIVO employee: the rows are a permutation of the ACTIVO employees' availabilities, ordered by employee code |
| VacationRoutes.DisponiblesAll | BACKEND/src/routes/vacaciones.routes.js:219-240 | a row is listed exactly when it is the availability of some ACTIVO employee |
| VacationRoutes.DisponiblesMembers | BACKEND/src/routes/vacaciones.routes.js:219-240 | the same, for one row |
| VacationRoutes.NoRequestsAllDays | BACKEND/src/routes/vacaciones.routes.js:235 | an employee without requests counted in the year has 20 days |
| VacationRoutes.TomadosNone | BACKEND/src/routes/vacaciones.routes.js:220-228 | without counted requests nothing is taken |
| VacationRoutes.TomadosAppend | BACKEND/src/routes/vacaciones.routes.js:220-228 | a new request takes its days from every year it starts or ends in |
| VacationRoutes.TomadosIgnoresEstado | BACKEND/src/routes/vacaciones.routes.js:220-228 | approving or rejecting a request does not give its days back: the count ignores estado (also at lines 186-194) |
| VacationRoutes.VacationStore.constructor | BACKEND/src/routes/vacaciones.routes.js:118-136 | the table starts empty, with identity 1 |
| VacationRoutes.VacationStore.Crear | BACKEND/src/routes/vacaciones.routes.js:71-163 | a request that fails a check writes nothing and returns that failure; otherwise the row is appended under the next id and its 201 body returned |
| VacationRoutes.VacationStore.Actualizar | BACKEND/src/routes/vacaciones.routes.js:170-204 | 400 "El campo 'estado' es obligatorio." when estado is falsy, then 400 "id_vacacion inválido" for a non-integer id, both with nothing changed; otherwise only the estado of the row with that id changes |
| VacationRoutes.VacationStore.DiasDisponibles | BACKEND/src/routes/vacaciones.routes.js:211-261 | the rows are ordered by employee code, and a row is listed exactly when it is the availability, in the requested or current year, of some ACTIVO employee |
| VacationPage.FromView | rrhh-muni/src/pages/Vacaciones.jsx:38-43 | a loaded request keeps the server's id, estado and `dias` |
| VacationPage.Local | rrhh-muni/src/pages/Vacaciones.jsx:43 | the table holds the server's rows, one for one |
| VacationPage.CountEstado | rrhh-muni/src/pages/Vacaciones.jsx:78-83 | an estado count never exceeds the number of requests |
| VacationPage.ResumenOf | rrhh-muni/src/pages/Vacaciones.jsx:76-90 | `total` is the number of requests, `pendientes`/`aprobadas` count exact "Pendiente"/"Aprobado" matches, `diasTotales` sums `Number(dias) \|\| 0` |
| VacationPage.PendientesAprobadasBound | rrhh-muni/src/pages/Vacaciones.jsx:78-83 | a request counts under at most one estado, so the two cards never exceed the total |
| VacationPage.DiasTotalesOfListing | rrhh-muni/src/pages/Vacaciones.jsx:84-87 | on a listing from the server every `dias` is a number, and the card is their sum (the route side is BACKEND/src/routes/vacaciones.routes.js:23) |
| VacationPage.Filtradas | rrhh-muni/src/pages/Vacaciones.jsx:95-108 | the filter keeps a subsequence of the requests |
| VacationPage.FiltradasMembers | rrhh-muni/src/pages/Vacaciones.jsx:95-108 | a request is shown exactly when the lowercased term is empty or occurs in its lowercased name or its DPI, and the filter is "todos" or its lowercased estado equals it |
| VacationPage.FiltradasAll | rrhh-muni/src/pages/Vacaciones.jsx:95-108 | the same, for every request at once |
| VacationPage.FiltradasEmpty | rrhh-muni/src/pages/Vacaciones.jsx:98-105 | with an empty search and "todos" every request is shown, in order |
| VacationPage.DiasCalculadosRefused | rrhh-muni/src/pages/Vacaciones.jsx:156-165 | a missing date does nothing; on two calendar dates the end is refused exactly when it lies before the start |
| VacationPage.DiasCalculadosInclusive | rrhh-muni/src/pages/Vacaciones.jsx:167-173 | the count is the number of days from start to end, both counted |
| VacationPage.SameDayIsOne | rrhh-muni/src/pages/Vacaciones.jsx:167-173 | a one-day request counts "1" |
| VacationPage.DiasPayload | rrhh-muni/src/pages/Vacaciones.jsx:189 | `Number(dias) \|\| undefined`: 0 and NaN are left out, any other number is sent as is |
| VacationPage.NuevaPayload | rrhh-muni/src/pages/Vacaciones.jsx:176-191 | nothing is sent without a selected employee; otherwise the employee's DPI, the two dates, `motivo` and `dias` as above |
| VacationPage.PayloadRequired | rrhh-muni/src/pages/Vacaciones.jsx:185-191 | the body passes the server's required-field check exactly when the employee has a DPI, both dates are filled in and `dias` is a nonzero number (the route side is BACKEND/src/routes/vacaciones.routes.js:74) |
| VacationPage.CountedDaysReachServer | rrhh-muni/src/pages/Vacaciones.jsx:167-173 | a counted `dias` reaches the table as that whole number of days (the route side is BACKEND/src/routes/vacaciones.routes.js:105) (also at line 189) |
| VacationPage.SetEstadoLocal | rrhh-muni/src/pages/Vacaciones.jsx:260-266 | only the estado of the requests with that id changes |
| VacationPage.SetEstadoViews | BACKEND/src/routes/vacaciones.routes.js:186-194 | the listing rows with a new estado for one request |
| VacationPage.ListadoSetEstado | BACKEND/src/routes/vacaciones.routes.js:14-47 | listing after the update is updating the listing (also at lines 186-194) |
| VacationPage.ListadoRowSetEstado | BACKEND/src/routes/vacaciones.routes.js:14-47 | the same, for one request |
| VacationPage.SetEstadoViewsAppend | BACKEND/src/routes/vacaciones.routes.js:14-47 | updating two blocks of rows is updating each |
| VacationPage.LocalUpdateMatchesServer | rrhh-muni/src/pages/Vacaciones.jsx:260-266 | after the server accepts a new estado, the page shows what a reload of the listing would show (the route side is BACKEND/src/routes/vacaciones.routes.js:186-194) |
| VacationPage.VacationPageState.constructor | rrhh-muni/src/pages/Vacaciones.jsx:16-33 | the page starts empty, with the "todos" filter and the empty form |
| VacationPage.VacationPageState.Load | rrhh-muni/src/pages/Vacaciones.jsx:38-48 | the table becomes the server's listing |
| VacationPage.VacationPageState.Cards | rrhh-muni/src/pages/Vacaciones.jsx:76-90 | the pending and approved cards never add up to more than the total, and `diasTotales` sums the days |
| VacationPage.VacationPageState.Table | rrhh-muni/src/pages/Vacaciones.jsx:95-108 | the table shows exactly the requests that match the search and the estado filter |
| VacationPage.VacationPageState.CalcularDias | rrhh-muni/src/pages/Vacaciones.jsx:156-174 | only an accepted count changes the form, and only its `dias`; a refused count changes nothing and gives the alert; a missing date does nothing |
| VacationPage.VacationPageState.SubmitNueva | rrhh-muni/src/pages/Vacaciones.jsx:176-224 | the body sent is `NuevaPayload`; after a success the listing is reloaded and the modal reset; otherwise nothing changes; the filters and the detail are never touched |
| VacationPage.VacationPageState.ResetNueva | rrhh-muni/src/pages/Vacaciones.jsx:204-217 | the listing is the one reloaded from the server, and the modal closes with the search, the selection and the form reset |
| VacationPage.VacationPageState.OpenDetalle | rrhh-muni/src/pages/Vacaciones.jsx:230-232 | the detail opens on the request |
| VacationPage.VacationPageState.GuardarDetalle | rrhh-muni/src/pages/Vacaciones.jsx:241-274 | nothing is sent without an open detail; otherwise its id and estado are sent and, on success, the matching requests take the estado and the detail closes; on failure nothing changes |
| VacationPage.DetallePath | rrhh-muni/src/pages/Vacaciones.jsx:245-246 | the id the route reads from the path is the id of the request reviewed (the route side is BACKEND/src/routes/vacaciones.routes.js:181) |
| LeaveRoutes.PermisosListado | BACKEND/src/routes/permisos.routes.js:39-63 | at most one row per request, each carrying the id and estado of some request |
| LeaveRoutes.PermisosListadoMembers | BACKEND/src/routes/permisos.routes.js:41-61 | a row is listed exactly when it is the joined row of some request; a listed row carries the DPI, full name and department (or none, by the LEFT JOIN) of an existing employee |
| LeaveRoutes.FechaFinReal | BACKEND/src/routes/permisos.routes.js:111 | `fechaFin \|\| fechaInicio` |
| LeaveRoutes.NewPermiso | BACKEND/src/routes/permisos.routes.js:82-145 | 400 "Faltan datos obligatorios…" exactly when `dpi`, `tipo`, `fechaInicio` or `motivo` is falsy; then 400 "No se encontró un empleado con ese DPI." exactly when no employee has it; then 500 when a date, read as `YYYY-MM-DD`, is not a date from year 0001 on that the `date` column holds; otherwise the row of that employee with `fecha_fin` defaulted, today's `fecha_solicitud`, estado "Pendiente" and no signed file |
| LeaveRoutes.OneDayByDefault | BACKEND/src/routes/permisos.routes.js:111 | without an end date the request covers its start day alone |
| LeaveRoutes.SetPermisoEstado | BACKEND/src/routes/permisos.routes.js:180-188 | only the estado of the rows with that id changes |
| LeaveRoutes.SetArchivo | BACKEND/src/routes/permisos.routes.js:217-225 | only `archivo_firmado` of the rows with that id changes |
| LeaveRoutes.ExtOrPdf | BACKEND/src/routes/permisos.routes.js:27 | the original name's extension, or ".pdf" when it has none; always starts with a dot |
| LeaveRoutes.PlaceholderErased | BACKEND/src/routes/permisos.routes.js:26 | without a DPI field the name as written is the bare infix, timestamp and extension: the "sin_dpi" placeholder is lost (also at line 29) |
| LeaveRoutes.DpiOrPlaceholder | BACKEND/src/routes/permisos.routes.js:26 | the DPI field when one is present and non-empty, otherwise the "sin_dpi" placeholder |
| LeaveRoutes.PlaceholderHasNoDigit | BACKEND/src/routes/permisos.routes.js:26 | "sin_dpi" has no digit |
| LeaveRoutes.DpiPart | BACKEND/src/routes/permisos.routes.js:26 | the corrected DPI part is the DPI's digits when it has any, and otherwise the placeholder |
| LeaveRoutes.FirmadoFilename | BACKEND/src/routes/permisos.routes.js:25-29 | the corrected name reads back as the DPI part, "_permiso_" and the timestamp |
| LeaveRoutes.FirmadoNamesTheDpi | BACKEND/src/routes/permisos.routes.js:25-29 | every corrected name starts with the DPI's digits or the placeholder, never with "_" |
| LeaveRoutes.FirmadoAgrees | BACKEND/src/routes/permisos.routes.js:25-29 | where the DPI has a digit the corrected name and the name as written agree |
| LeaveRoutes.PdfByDefault | BACKEND/src/routes/permisos.routes.js:27 | a file without an extension is stored with ".pdf" (also at line 29) |
| LeaveRoutes.AsWrittenDigitsOfDpi | BACKEND/src/routes/permisos.routes.js:26-29 | the name as written is the DPI's digits (none without a DPI), "_permiso_", the timestamp and the extension |
| LeaveRoutes.FirmadoParts | BACKEND/src/routes/permisos.routes.js:26-29 | the name as written reads back as an all-digit DPI part, the infix, then the timestamp |
| LeaveRoutes.LeaveStore.constructor | BACKEND/src/routes/permisos.routes.js:124-145 | the table starts empty, with identity 1 |
| LeaveRoutes.LeaveStore.Crear | BACKEND/src/routes/permisos.routes.js:82-157 | a refused request writes nothing and returns the refusal; otherwise the row is appended under the next id, which is returned |
| LeaveRoutes.LeaveStore.Actualizar | BACKEND/src/routes/permisos.routes.js:164-195 | 400 "El campo 'estado' es obligatorio." when estado is falsy, then 400 "id_permiso inválido" for a non-integer id, both with nothing changed; otherwise only the estado of that row changes |
| LeaveRoutes.LeaveStore.SubirFirmado | BACKEND/src/routes/permisos.routes.js:200-254 | 400 for a non-integer id, then 400 "No se recibió ningún archivo." without a file, both with nothing changed; otherwise `archivo_firmado` of that row becomes the name the storage builds as written (the DPI field's digits, "_permiso_", the timestamp and the extension), which is returned |
| LeaveRoutes.LeaveStore.Record | BACKEND/src/routes/permisos.routes.js:217-225 | the update of the signed form's name |
| LeaveRoutes.SetPermisoEstadoKeeps | BACKEND/src/routes/permisos.routes.js:185-187 | changing the estado keeps the rest of every row, the signed file included |
| LeavePage.ToDate | rrhh-muni/src/pages/Permisos.jsx:52-53 | a missing or empty value reads as ""; otherwise the value's first ten characters (all of it when shorter) |
| LeavePage.ToDateOfIsoDate | rrhh-muni/src/pages/Permisos.jsx:52-53 | a `YYYY-MM-DD` date passes through `toDate` unchanged (also at lines 65-66) |
| LeavePage.IdOr | rrhh-muni/src/pages/Permisos.jsx:60 | `id_permiso \|\| id`: the first id unless it is missing or 0 |
| LeavePage.Adapt | rrhh-muni/src/pages/Permisos.jsx:55-73 | estado defaults to "Pendiente" when falsy; the signed form is `archivo_firmado`, else `archivoFirmadoNombre`, else none; the start date is `toDate` of the first present spelling |
| LeavePage.AdaptAll | rrhh-muni/src/pages/Permisos.jsx:55-74 | one adapted record per row, in order |
| LeavePage.AdaptListingRow | rrhh-muni/src/pages/Permisos.jsx:55-73 | a row of the server's listing keeps its id, DPI, name, dates and estado (empty becoming "Pendiente"), and an empty signed form reads as none |
| LeavePage.CountPermisos | rrhh-muni/src/pages/Permisos.jsx:89-91 | a count of requests in one estado never exceeds the list |
| LeavePage.CountsBound | rrhh-muni/src/pages/Permisos.jsx:88-91 | pending, approved and rejected together never exceed the total |
| LeavePage.PermisosFiltrados | rrhh-muni/src/pages/Permisos.jsx:97-110 | the filtered list is no longer than the list |
| LeavePage.PermisosFiltradosMembers | rrhh-muni/src/pages/Permisos.jsx:97-110 | a request is shown exactly when it is in the list and its DPI contains the trimmed term (if any), and its start date is not before `desde` nor after `hasta` (each if set) |
| LeavePage.PermisosFiltradosAll | rrhh-muni/src/pages/Permisos.jsx:97-110 | the same, for every request at once |
| LeavePage.ClearedFiltersKeepAll | rrhh-muni/src/pages/Permisos.jsx:112-116 | with the three filters cleared every request is shown, in order (also at lines 97-110) |
| LeavePage.RangeIsChronological | rrhh-muni/src/pages/Permisos.jsx:101-107 | on `YYYY-MM-DD` dates the string comparison of the range filter is the calendar comparison |
| LeavePage.NuevoPayload | rrhh-muni/src/pages/Permisos.jsx:186-206 | refused with "Faltan datos obligatorios…" exactly when the trimmed dpi, tipo or motivo is empty or there is no start date; otherwise the body carries the form's fields, the end date defaulting to the start date |
| LeavePage.PayloadPassesServer | rrhh-muni/src/pages/Permisos.jsx:186-206 | a body the page sends always passes the server's required-field check (BACKEND permisos.routes.js:85-90), and the server stores the end date the page chose |
| LeavePage.TrimNonEmpty | rrhh-muni/src/pages/Permisos.jsx:187-190 | a string with non-empty trim is non-empty |
| LeavePage.SaveDetalle | rrhh-muni/src/pages/Permisos.jsx:258-269 | the rows with the selected id take the selected estado, and its signed form unless it has none; every other row is unchanged |
| LeavePage.SaveKeepsFile | rrhh-muni/src/pages/Permisos.jsx:264-265 | saving without a selected signed form keeps the row's form, and changes nothing but the estado |
| LeavePage.NombreArchivo | rrhh-muni/src/pages/Permisos.jsx:305-311 | the first present of the six keys; none exactly when all six are missing |
| LeavePage.NombreOfServerAnswer | rrhh-muni/src/pages/Permisos.jsx:305-311 | the name the upload route returns (BACKEND permisos.routes.js:227-230) is the name the page records |
| LeavePage.SetFile | rrhh-muni/src/pages/Permisos.jsx:336-342 | only the rows with the selected id take the new signed form |
| LeavePage.DpiBeforeFile | rrhh-muni/src/pages/Permisos.jsx:284-286 | a DPI the storage sees is a `dpi` field of the body |
| LeavePage.UploadHidesDpi | rrhh-muni/src/pages/Permisos.jsx:284-286 | as written the file part comes first, so the storage sees no DPI and the stored name is "_permiso_", the timestamp and the extension, whatever the employee |
| LeavePage.UploadShowsDpi | rrhh-muni/src/pages/Permisos.jsx:284-286 | with the `dpi` field first the storage sees the DPI and the stored name starts with its digits |
| LeavePage.LeavePageState.constructor | rrhh-muni/src/pages/Permisos.jsx:16-40 | no requests, no modal, no selection, the blank form and empty filters |
| LeavePage.LeavePageState.Load | rrhh-muni/src/pages/Permisos.jsx:45-81 | the list becomes the adapted rows |
| LeavePage.LeavePageState.Table | rrhh-muni/src/pages/Permisos.jsx:97-110 | the table holds exactly the requests of the list that pass the three filters |
| LeavePage.LeavePageState.LimpiarFiltros | rrhh-muni/src/pages/Permisos.jsx:112-116 | the filters are empty and the table shows the whole list |
| LeavePage.LeavePageState.SubmitNuevo | rrhh-muni/src/pages/Permisos.jsx:183-221 | the body sent is `NuevoPayload` of the form; after a success the list is reloaded, the modal closed and the form reset (123-135); otherwise nothing changes |
| LeavePage.LeavePageState.GuardarDetalle | rrhh-muni/src/pages/Permisos.jsx:238-277 | without a selection nothing is sent; otherwise the PUT carries the id and estado, and after a success the list is `SaveDetalle` of it and the detail closes; after a failure nothing changes |
| LeavePage.LeavePageState.UploadFirmado | rrhh-muni/src/pages/Permisos.jsx:279-350 | without a file or a selection nothing is sent; the body is the file then the DPI; an answer naming a file records it in the detail and the list; any other result changes nothing |
| EmployeeRoutes.Carpeta | BACKEND/src/routes/empleados.routes.js:17-26 | a photo goes to "fotosempleados", a DPI scan to "dpiempleados" and any other field to "uploads", and only then |
| EmployeeRoutes.StoredNameParts | BACKEND/src/routes/empleados.routes.js:27-31 | the stored name reads back as the field name, "-", the timestamp's digits and the original extension; without an extension it ends in the timestamp |
| EmployeeRoutes.ServedFolder | BACKEND/src/server.js:24-44 | every static prefix is served from one of the two upload folders |
| EmployeeRoutes.UrlsReachStoredFiles | BACKEND/src/routes/empleados.routes.js:104-109 | the URL built for a stored photo or DPI scan is under a prefix served from the very folder the storage put the file in (BACKEND/src/server.js:35-44) |
| EmployeeRoutes.RutaOf | BACKEND/src/routes/empleados.routes.js:215-219 | a path exactly when a file came, and then its stored name |
| EmployeeRoutes.IdColumn | BACKEND/src/routes/empleados.routes.js:205-209 | a falsy field is NULL; otherwise the key parsed by `parseInt`, or NaN (no value) when the field has no leading digits |
| EmployeeRoutes.IdColumnOfIntToString | BACKEND/src/routes/empleados.routes.js:205-209 | a key sent as its decimal text is stored as that key |
| EmployeeRoutes.SalarioColumn | BACKEND/src/routes/empleados.routes.js:211-213 | a falsy salary is 0; otherwise `parseFloat` of the text, NaN being no value |
| EmployeeRoutes.SalarioColumnOfNatToString | BACKEND/src/routes/empleados.routes.js:211-213 | a whole salary sent as its digits is stored as that amount |
| EmployeeRoutes.SalarioDefaultZero | BACKEND/src/routes/empleados.routes.js:211-213 | the text "0" stores the same 0 as a missing salary |
| EmployeeRoutes.EstadoColumn | BACKEND/src/routes/empleados.routes.js:239 | the estado sent when it is non-empty, otherwise "ACTIVO"; never empty |
| EmployeeRoutes.RowOf | BACKEND/src/routes/empleados.routes.js:205-248 | a row exactly when no key or salary is NaN; the row is normalized (no empty text) and carries the id and file paths given |
| EmployeeRoutes.RowOfColumns | BACKEND/src/routes/empleados.routes.js:223-245 | column by column: texts and dates by `x \|\| null`, keys and salary by their parsers, estado by its default |
| EmployeeRoutes.CreationDefaults | BACKEND/src/routes/empleados.routes.js:211-213 | an employee created without salary, estado or dates is ACTIVO, earns 0 and has NULL dates (also at lines 228-244) |
| EmployeeRoutes.Overwrite | BACKEND/src/routes/empleados.routes.js:403-422 | same ids, same length; the row with the id takes the body's columns and keeps each file path for which no new file came; every other row is untouched |
| EmployeeRoutes.OverwriteKeepsFiles | BACKEND/src/routes/empleados.routes.js:419-420 | without a new file the path is kept; with one, the updated row takes it |
| EmployeeRoutes.OverwriteUnknownId | BACKEND/src/routes/empleados.routes.js:421 | an id of no employee changes nothing |
| EmployeeRoutes.DetalleOf | BACKEND/src/routes/empleados.routes.js:160-170 | the row itself, with a photo URL exactly when it has a photo path and a DPI URL exactly when it has a DPI path |
| EmployeeRoutes.Obtener | BACKEND/src/routes/empleados.routes.js:122-175 | 400 exactly when the id has no leading digits; 404 exactly when no employee has the parsed id; otherwise the detail of an employee with that id |
| EmployeeRoutes.ObtenerById | BACKEND/src/routes/empleados.routes.js:122-170 | with unique ids, reading an employee by its id answers that employee's detail |
| EmployeeRoutes.DateText | BACKEND/src/routes/empleados.routes.js:88 | a date's text is present exactly when the date is, and is a prefix of at most ten characters |
| EmployeeRoutes.FilaRow | BACKEND/src/routes/empleados.routes.js:93-96 | an employee adds at most one row to the listing |
| EmployeeRoutes.Filas | BACKEND/src/routes/empleados.routes.js:93-96 | the joined rows are at most one per employee |
| EmployeeRoutes.FilaRowListed | BACKEND/src/routes/empleados.routes.js:77-110 | an employee's row is listed exactly as its three joins and URLs give it |
| EmployeeRoutes.FilasMembers | BACKEND/src/routes/empleados.routes.js:77-110 | a row is in the join exactly when some employee is listed as it |
| EmployeeRoutes.Listado | BACKEND/src/routes/empleados.routes.js:77-110 | at most one row per employee, ordered by code |
| EmployeeRoutes.ListadoMembers | BACKEND/src/routes/empleados.routes.js:77-110 | a row is listed exactly when some employee's three joins give it; its URLs are present exactly when its paths are, and are the served prefix followed by the path |
| EmployeeRoutes.NombreMas | BACKEND/src/routes/empleados.routes.js:60 | `nombres + ' ' + apellidos` is NULL exactly when a name part is |
| EmployeeRoutes.CandidatoRow | BACKEND/src/routes/empleados.routes.js:50-60 | an employee matches at most once |
| EmployeeRoutes.Candidatos | BACKEND/src/routes/empleados.routes.js:50-60 | at most one match per employee |
| EmployeeRoutes.CandidatosMembers | BACKEND/src/routes/empleados.routes.js:50-60 | a row matches exactly when some employee with a renglón has the term in its DPI, code or full name |
| EmployeeRoutes.Buscar | BACKEND/src/routes/empleados.routes.js:37-69 | nothing for a blank term; at most 20 rows, ordered by code |
| EmployeeRoutes.BuscarMembers | BACKEND/src/routes/empleados.routes.js:37-69 | every row answered is a match; a match left out comes after every row answered and is only left out when more than 20 rows match |
| EmployeeRoutes.EmployeeStore.constructor | BACKEND/src/routes/empleados.routes.js:251-290 | an empty table with identity 1 |
| EmployeeRoutes.EmployeeStore.Crear | BACKEND/src/routes/empleados.routes.js:181-320 | 500 exactly when a key or the salary is NaN, writing nothing; otherwise the row of the body, with the stored names of the files that came, is appended under the next id, and the answer gives that id, the code, name, DPI, phone and entry date as sent, NULL post, department and renglón, the stored estado, salary and paths, 0 vacation days and the files' URLs |
| EmployeeRoutes.TemplateText | BACKEND/src/routes/empleados.routes.js:297 | `${x}` is the text itself, and "undefined" for a field that was not sent |
| EmployeeRoutes.NombreCreadoOfRow | BACKEND/src/routes/empleados.routes.js:297 | with both name parts sent, the answer's name is the `CONCAT` name of the stored row; with no `nombres`, the answer's name starts with "undefined " while the row stores NULL |
| EmployeeRoutes.EmployeeStore.Append | BACKEND/src/routes/empleados.routes.js:251-290 | the row is appended and the identity advances |
| EmployeeRoutes.EmployeeStore.Actualizar | BACKEND/src/routes/empleados.routes.js:326-430 | 400 exactly when the id has no leading digits, then 500 exactly when a key or the salary is NaN, both changing nothing; otherwise the table is `Overwrite` of it |
| EmployeePage.Filtrados | rrhh-muni/src/pages/Empleados.jsx:86-105 | the shown employees are a subsequence of the list, in list order |
| EmployeePage.FiltradosMembers | rrhh-muni/src/pages/Empleados.jsx:86-105 | an employee is shown exactly when it is in the list and passes the search (lowercased name or code, raw DPI), renglón (exact or "todos") and estado (case-insensitive or "todos") filters |
| EmployeePage.FiltradosIff | rrhh-muni/src/pages/Empleados.jsx:86-105 | the same, for every employee at once |
| EmployeePage.FiltradosCount | rrhh-muni/src/pages/Empleados.jsx:89 | the number shown never exceeds the total |
| EmployeePage.FiltradosAll | rrhh-muni/src/pages/Empleados.jsx:46-48 | with the initial empty search and both filters on "todos" every employee is shown, in order (also at lines 86-105) |
| EmployeePage.EstadoIgnoresCase | rrhh-muni/src/pages/Empleados.jsx:99-101 | two estado filters differing only in case show the same employees |
| EmployeePage.FileSet | rrhh-muni/src/pages/Empleados.jsx:244-252 | the `foto` and `dpi` inputs set their own file and no other; any other input leaves the fields the page reads unchanged |
| EmployeePage.NumberTextWhole | rrhh-muni/src/pages/Empleados.jsx:218-219 | `String` of a whole salary is its digits |
| EmployeePage.KeyText | rrhh-muni/src/pages/Empleados.jsx:213-215 | a key as text: its decimal form, or "" for NULL and 0 |
| EmployeePage.JsonDate | rrhh-muni/src/pages/Empleados.jsx:210 | a date's JSON text is present exactly when the date is (also at line 217) |
| EmployeePage.JsonDateKeepsDay | rrhh-muni/src/pages/Empleados.jsx:210 | the JSON text of a date keeps its day, and is a fixed point of sending it back (also at line 217) |
| EmployeePage.FormOf | rrhh-muni/src/pages/Empleados.jsx:204-224 | the form filled for editing carries the employee's id, no chosen file and a non-empty estado |
| EmployeePage.TextNamesDistinct | rrhh-muni/src/pages/Empleados.jsx:269-281 | the thirteen text fields have distinct names |
| EmployeePage.TextValues | rrhh-muni/src/pages/Empleados.jsx:269-281 | thirteen values, one per text field |
| EmployeePage.TextParts | rrhh-muni/src/pages/Empleados.jsx:269-281 | the text parts are the thirteen names with their values, in order |
| EmployeePage.FileParts | rrhh-muni/src/pages/Empleados.jsx:283-288 | only file parts |
| EmployeePage.PartsOf | rrhh-muni/src/pages/Empleados.jsx:268-288 | thirteen text parts plus one part for each chosen file |
| EmployeePage.SubmitRequest | rrhh-muni/src/pages/Empleados.jsx:262-293 | PUT to the employee's id in edit mode, POST to the collection otherwise, with that body |
| EmployeePage.EditTargetsEmployee | rrhh-muni/src/pages/Empleados.jsx:264 | the edit URL's id parses back to the employee's id; without an id it parses to nothing and the route answers 400 |
| EmployeePage.FieldOf | rrhh-muni/src/pages/Empleados.jsx:269-281 | a field read from the body is the value of a text part of that name; none when no text part has the name |
| EmployeePage.FileOf | rrhh-muni/src/pages/Empleados.jsx:283-288 | a file read from the body is a file part of that name |
| EmployeePage.FieldOfAppend | rrhh-muni/src/pages/Empleados.jsx:268-288 | parts appended later do not hide an earlier text field |
| EmployeePage.FileOfAppend | rrhh-muni/src/pages/Empleados.jsx:268-288 | text parts before the files do not change which file is found |
| EmployeePage.FieldOfAt | rrhh-muni/src/pages/Empleados.jsx:269-281 | the first text field of a name is found wherever it stands |
| EmployeePage.SubmitBody | rrhh-muni/src/pages/Empleados.jsx:269-281 | the route reads back every text field appended, the salary as "0" when empty |
| EmployeePage.SubmitFiles | rrhh-muni/src/pages/Empleados.jsx:272 | the route receives exactly the chosen files: the text field `dpi` does not hide the file `dpi` (also at lines 283-288) |
| EmployeePage.EditWithoutChangesKeepsRow | rrhh-muni/src/pages/Empleados.jsx:196-231 | opening an employee and saving it unchanged sends no file and rewrites the same row, dates keeping their day (whole salaries and nonzero keys) (also at lines 257-293) |
| EmployeePage.SentBodyOfRow | rrhh-muni/src/pages/Empleados.jsx:204-224 | the body read back from an unchanged edit form: each text column as sent, each key and the salary parsing back to the row's value (also at lines 269-281) |
| EmployeePage.TextBack | rrhh-muni/src/pages/Empleados.jsx:206-212 | a non-empty text column survives `x \|\| ""` then `x \|\| null` |
| EmployeePage.DateBack | rrhh-muni/src/pages/Empleados.jsx:210 | a date's JSON text survives `x \|\| ""` then `x \|\| null` (also at line 217) |
| EmployeePage.KeyBack | rrhh-muni/src/pages/Empleados.jsx:213-215 | a key that round-trips is stored back as itself |
| EmployeePage.EmployeePageState.constructor | rrhh-muni/src/pages/Empleados.jsx:38-48 | list mode, no employees, the initial form, an empty search and both filters on "todos" |
| EmployeePage.EmployeePageState.Visibles | rrhh-muni/src/pages/Empleados.jsx:86-105 | the table shows exactly the employees of the list that pass the three filters |
| EmployeePage.EmployeePageState.Load | rrhh-muni/src/pages/Empleados.jsx:55-81 | the list becomes the loaded rows |
| EmployeePage.EmployeePageState.ResetForm | rrhh-muni/src/pages/Empleados.jsx:110-112 | the form is exactly the initial form |
| EmployeePage.EmployeePageState.MostrarNuevo | rrhh-muni/src/pages/Empleados.jsx:114-117 | the initial form in create mode |
| EmployeePage.EmployeePageState.VolverListado | rrhh-muni/src/pages/Empleados.jsx:119-122 | back to list mode with exactly the initial form |
| EmployeePage.EmployeePageState.Editar | rrhh-muni/src/pages/Empleados.jsx:196-231 | on success the form is `FormOf` the answer, in edit mode; on failure nothing changes |
| EmployeePage.FieldSet | rrhh-muni/src/pages/Empleados.jsx:236-242 | `[name]: value`: the field of that input name, and only it, takes the typed value; an unknown name changes no field the page reads; the id, files and stored paths are kept |
| EmployeePage.TypedValueReachesRoute | rrhh-muni/src/pages/Empleados.jsx:236-242 | a value typed into any text input but the salary is the value the multipart body carries under that input's name |
| EmployeePage.EmployeePageState.ChangeForm | rrhh-muni/src/pages/Empleados.jsx:236-242 | the form becomes `FieldSet` of the old form |
| EmployeePage.EmployeePageState.ChangeFile | rrhh-muni/src/pages/Empleados.jsx:244-252 | the form is `FileSet` of the old form |
| EmployeePage.EmployeePageState.Submit | rrhh-muni/src/pages/Empleados.jsx:257-318 | the request is `SubmitRequest` of the old mode and form; on success the list is reloaded, the mode is list and the form reset; on failure nothing changes |
| RenglonRoutes.ParamIdOfNat | BACKEND/src/routes/renglones.routes.js:84 | the id the page writes into the path reaches the query as that number (also at lines 111, 155) |
| RenglonRoutes.Asignados | BACKEND/src/routes/renglones.routes.js:18-22 | the count never exceeds the employees, and is 0 exactly when no ACTIVO employee references the renglón |
| RenglonRoutes.Filas | BACKEND/src/routes/renglones.routes.js:12-25 | at most one row per renglón |
| RenglonRoutes.FilasMembers | BACKEND/src/routes/renglones.routes.js:12-25 | a row is in the grouped join exactly when it is an active renglón with its count |
| RenglonRoutes.Listado | BACKEND/src/routes/renglones.routes.js:9-34 | at most one row per renglón, ordered by code |
| RenglonRoutes.ListadoMembers | BACKEND/src/routes/renglones.routes.js:9-34 | a row is listed exactly when it is an active renglón with its count of ACTIVO employees; an inactive renglón is never listed |
| RenglonRoutes.AsignadosAppend | BACKEND/src/routes/renglones.routes.js:18-22 | one more employee adds one to the count exactly when it references the renglón and is ACTIVO |
| RenglonRoutes.AsignadoRow | BACKEND/src/routes/renglones.routes.js:157-170 | an employee adds at most one row |
| RenglonRoutes.AsignadosFilas | BACKEND/src/routes/renglones.routes.js:157-170 | at most one row per employee |
| RenglonRoutes.AsignadosFilasMembers | BACKEND/src/routes/renglones.routes.js:157-170 | a row is in the join exactly when some employee of the renglón, ACTIVO, with its post and department found, gives it |
| RenglonRoutes.EmpleadosDe | BACKEND/src/routes/renglones.routes.js:149-179 | 500 "Error al obtener empleados" exactly when the id is no number; otherwise at most one row per employee, ordered by code |
| RenglonRoutes.EmpleadosDeMembers | BACKEND/src/routes/renglones.routes.js:149-179 | a row is listed exactly when some ACTIVO employee of the renglón whose joins succeed gives it |
| RenglonRoutes.CountMatchesList | BACKEND/src/routes/renglones.routes.js:18-22 | when every post and department resolves, the listing's count for a renglón equals the length of its employee list (also at lines 166-170) |
| RenglonRoutes.EmpleadosDeCounted | BACKEND/src/routes/renglones.routes.js:18-22 | the list opened for a renglón succeeds and has as many rows as its listing count (also at lines 149-179) |
| RenglonRoutes.NuevoRenglon | BACKEND/src/routes/renglones.routes.js:53-56 | the inserted row carries the id, code and name, is active, and has a description exactly when a non-empty one came |
| RenglonRoutes.Actualizar | BACKEND/src/routes/renglones.routes.js:89-93 | same length, ids and active flags; the rows with the id take the code, the name and the description (NULL when empty); no other row changes |
| RenglonRoutes.Referencias | BACKEND/src/routes/renglones.routes.js:114-118 | the count never exceeds the employees, and is 0 exactly when no employee, in any estado, references the renglón |
| RenglonRoutes.AsignadosBlockDelete | BACKEND/src/routes/renglones.routes.js:18-22 | every employee counted by the listing also blocks the delete (also at lines 114-122) |
| RenglonRoutes.Quitar | BACKEND/src/routes/renglones.routes.js:134-137 | what remains is a subsequence of the table |
| RenglonRoutes.QuitarMembers | BACKEND/src/routes/renglones.routes.js:134-137 | a renglón remains exactly when it was there and has another id |
| RenglonRoutes.QuitarUnique | BACKEND/src/routes/renglones.routes.js:134-137 | deleting keeps the ids distinct |
| RenglonRoutes.GuardKeepsRefs | BACKEND/src/routes/renglones.routes.js:113-137 | a delete the guard lets through leaves every employee's renglón in the table |
| RenglonRoutes.UnguardedDeleteBreaksRefs | BACKEND/src/routes/renglones.routes.js:113-137 | without the guard, deleting a referenced renglón leaves an employee pointing at nothing |
| RenglonRoutes.ActualizarKeepsKeys | BACKEND/src/routes/renglones.routes.js:89-93 | the edit keeps the ids distinct, below the identity, and every employee's renglón in the table |
| RenglonRoutes.CreadoListado | BACKEND/src/routes/renglones.routes.js:55-67 | a renglón just created is listed, with the count 0 that its creation answered (also at lines 9-34) |
| RenglonRoutes.RenglonStore.constructor | BACKEND/src/routes/renglones.routes.js:9-34 | a table with distinct ids below the identity, whose employees' renglones all exist |
| RenglonRoutes.RenglonStore.Crear | BACKEND/src/routes/renglones.routes.js:39-72 | 400 "Código y nombre son obligatorios" exactly when a code or a name is falsy, changing nothing; otherwise one active row is appended under the next identity and answered with count 0 |
| RenglonRoutes.RenglonStore.Editar | BACKEND/src/routes/renglones.routes.js:77-101 | 500 when the id is no number or a code or a name is missing, changing nothing; otherwise `Actualizar` of the table |
| RenglonRoutes.RenglonStore.Rewrite | BACKEND/src/routes/renglones.routes.js:82-94 | the table is `Actualizar` of it and the invariants hold |
| RenglonRoutes.RenglonStore.Eliminar | BACKEND/src/routes/renglones.routes.js:106-144 | 500 when the id is no number; 400 while any employee references the renglón; otherwise the renglón is removed; nothing changes on a refusal |
| RenglonPage.Adapt | rrhh-muni/src/pages/Renglones.jsx:38-44 | a loaded record keeps the id, code, name and description; a missing count is 0 |
| RenglonPage.Adapted | rrhh-muni/src/pages/Renglones.jsx:37-45 | one record per row, in order |
| RenglonPage.LoadMirrors | rrhh-muni/src/pages/Renglones.jsx:31-52 | loading the listing gives a list that shows the table, each record with the server's count of ACTIVO employees (BACKEND/src/routes/renglones.routes.js:9-34) |
| RenglonPage.EditForm | rrhh-muni/src/pages/Renglones.jsx:65-73 | the edit form carries the record's code and name; the description is "" exactly when the record has none |
| RenglonPage.Changed | rrhh-muni/src/pages/Renglones.jsx:81-84 | the named field takes the value; the other two are unchanged |
| RenglonPage.PayloadOf | rrhh-muni/src/pages/Renglones.jsx:90-100 | refused with the alert exactly when the trimmed code or name is empty; otherwise the trimmed fields with `activo: 1` |
| RenglonPage.PayloadPassesRoute | rrhh-muni/src/pages/Renglones.jsx:90-100 | an accepted payload passes the server's check (BACKEND/src/routes/renglones.routes.js:42-46) |
| RenglonPage.PageStricterOnBlanks | rrhh-muni/src/pages/Renglones.jsx:90-100 | a non-empty code of blanks is refused by the page, while the server's check (BACKEND/src/routes/renglones.routes.js:42-46) would accept it with any non-empty name |
| RenglonPage.ResaveSamePayload | rrhh-muni/src/pages/Renglones.jsx:65-73 | reopening a saved record and saving it unchanged sends the same payload (also at lines 90-100) |
| RenglonPage.ItemPathId | rrhh-muni/src/pages/Renglones.jsx:107 | the path ends in the record's id, which the route reads back unchanged (also at line 163) |
| RenglonPage.SubmitRequest | rrhh-muni/src/pages/Renglones.jsx:87-130 | refused exactly when the payload is; PUT to the record edited, POST to the collection otherwise, carrying the payload |
| RenglonPage.Editado | rrhh-muni/src/pages/Renglones.jsx:114-120 | only the records with the id change, taking the payload's fields and keeping their id and count |
| RenglonPage.Sin | rrhh-muni/src/pages/Renglones.jsx:168-170 | the records left are a subsequence of the list |
| RenglonPage.SinMembers | rrhh-muni/src/pages/Renglones.jsx:168-170 | a record is left exactly when it was there and has another id |
| RenglonPage.SinIdempotent | rrhh-muni/src/pages/Renglones.jsx:168-170 | removing twice removes nothing more |
| RenglonPage.EditMirrors | rrhh-muni/src/pages/Renglones.jsx:114-120 | the local edit keeps the list showing the table after the server's `UPDATE` (BACKEND/src/routes/renglones.routes.js:89-93) |
| RenglonPage.SinMirrors | rrhh-muni/src/pages/Renglones.jsx:168-170 | the local removal matches the server's `DELETE` (BACKEND/src/routes/renglones.routes.js:134-137) |
| RenglonPage.CreateMirrors | rrhh-muni/src/pages/Renglones.jsx:132-141 | the record appended after a create shows the row the server inserted, with count 0 |
| RenglonPage.AfterSave | rrhh-muni/src/pages/Renglones.jsx:114-141 | after an edit the list is `Editado`; after a create it is the old list followed by the answered record |
| RenglonPage.RenglonPageState.constructor | rrhh-muni/src/pages/Renglones.jsx:13-20 | no records, the empty form, nothing edited, the dialog closed |
| RenglonPage.RenglonPageState.Load | rrhh-muni/src/pages/Renglones.jsx:31-45 | the list becomes the adapted rows |
| RenglonPage.RenglonPageState.OpenNew | rrhh-muni/src/pages/Renglones.jsx:59-63 | nothing edited, the empty form, the dialog open |
| RenglonPage.RenglonPageState.OpenEdit | rrhh-muni/src/pages/Renglones.jsx:65-73 | the record edited, its form, the dialog open |
| RenglonPage.RenglonPageState.Change | rrhh-muni/src/pages/Renglones.jsx:81-84 | the form is `Changed` of the old form |
| RenglonPage.RenglonPageState.Submit | rrhh-muni/src/pages/Renglones.jsx:87-153 | the request is `SubmitRequest`; a refusal or a failed request changes nothing; a success closes the dialog and gives `AfterSave` of the list |
| RenglonPage.RenglonPageState.Saved | rrhh-muni/src/pages/Renglones.jsx:114-146 | the dialog is closed, nothing edited, and the list is `AfterSave` of it |
| RenglonPage.RenglonPageState.Desactivar | rrhh-muni/src/pages/Renglones.jsx:156-176 | a DELETE to the record exactly when confirmed; the list loses the record's id only when the server accepts |
| RenglonPage.EmpleadosPathReachesRoute | rrhh-muni/src/pages/Renglones.jsx:186-188 | the path of a renglón's employees carries its id, which the route reads back and answers with exactly that renglón's ACTIVO employees (the route is BACKEND/src/routes/renglones.routes.js:149) |
| RenglonPage.RenglonPageState.VerEmpleados | rrhh-muni/src/pages/Renglones.jsx:179-200 | the dialog opens on the renglón, the request goes to its employees' path, and the list becomes the answer, empty on a failure |
| RenglonPage.RenglonPageState.CerrarEmpleados | rrhh-muni/src/pages/Renglones.jsx:202-206 | the dialog closes with no renglón and an empty list |

## Left out

- HTTP and `fetch`, the SQL Server driver and its connection pool. Each request's answer is a parameter of the page method that handles it. Each query is a function over in-memory tables.
- Alerts, modals, JSX rendering, `console` output, the printable constancia of a leave request (rrhh-muni/src/pages/Permisos.jsx:356-474) and currency formatting (`toLocaleString`, `formatearMoneda`): these are presentation.
- `Date.now()`, `new Date()`, today's date and the current year are parameters. Time zones are not modelled. The two files of an employee each take their own timestamp parameter.
- Concurrency and partial failure are not modelled. In particular, nothing models the missing transaction around the payroll inserts (BACKEND/src/routes/planillas.routes.js:224-318). The pages' `saving`/`loading` flags are left out too, since the model runs one handler at a time and the flags only guard against overlapping clicks (rrhh-muni/src/pages/Renglones.jsx:75-79).
- `GET /api/planillas`, the list of recent runs (BACKEND/src/routes/planillas.routes.js:340-363), is not modelled: it is one `SELECT TOP` with no logic.
- The Multer storage writes the uploaded file to disk even when the route then fails, and creates its directories; only the file name and the folder are modelled.
- SQL column widths (`VarChar(10)`, `NVarChar(100)`, …) and the errors of an over-long value are not modelled.
- `SCOPE_IDENTITY()` is a number in the model. The driver returns a `numeric`, which JSON carries as a number.
- The 201 status of a create is not distinguished from 200: `Outcome` only tells success from a failure status.
- `departamentos.routes.js` and `puestos.routes.js`, and the page handlers that call them (`handleCrearDepartamento`, `handleCrearPuesto`), are not modelled. The routes are plain inserts with a trimmed-name check.
- `handleVerDetalle` and `handleCerrarDetalle` (rrhh-muni/src/pages/Empleados.jsx:124-130), `handleCloseModal` (rrhh-muni/src/pages/Renglones.jsx:75-79), the rule page's `closeModal`, and the leave and vacation pages' `handleOpenDetalle` and `handleCloseDetalle` are not modelled: they close a dialog, or set or clear the record a dialog shows, copying the record as it is listed. `handleCloseCreate` (rrhh-muni/src/pages/Permisos.jsx:123-134) also puts the new-request form back to its initial values; it is not modelled either.
- The input handlers `handleChangeNueva` and `handleChangeDetalle` (rrhh-muni/src/pages/Vacaciones.jsx:148-154, 236-239), `handleChangeNuevo` and `handleChangeDetalle` (rrhh-muni/src/pages/Permisos.jsx:137-140, 233-236), and the rule page's `handleChangeForm` (rrhh-muni/src/pages/Bonificaciones.jsx:108-110) are not modelled. Each sets one field of a form record to the typed value. The submit methods take the form as it stands when it is sent, so they cover every sequence of edits. The employee page's `handleChangeForm` is modelled (`EmployeePage.FieldSet`), because its input names are the multipart field names the route reads.
- `handleCalcular` and `handleVerDetalleGuardado` (rrhh-muni/src/pages/Planillas.jsx:171-234) are not modelled as methods. They store the answer of `POST /api/planillas/calcular` or `GET /api/planillas/:id` as the page's last planilla, and the second one copies the header's fields into the shape the first one gets. The routes' answers (`PayrollStore.PayrollStore.Calcular`, `PayrollStore.PayrollStore.GetById`) and what the page derives from a stored planilla (`PayrollView`) are modelled. The reload of the recent runs and the alerts are I/O.
- PayrollEngine.QueryIsEligible: the `SELECT DISTINCT` of the rules that apply (BACKEND/src/routes/planillas.routes.js:48-67) has no `ORDER BY`, and the model lists the rules in table order. SQL does not promise that order. The order of an employee's breakdown lines follows it, and the totals do not depend on it.
- RulePage.RulePageState.BuscarEmpleados: the term is sent through `encodeURIComponent`, and the route reads it decoded; the encoding is not modelled. An error answer is a JSON object that the page stores as its results (`data || []`); the model stores no results. A network failure, which only alerts, is not told apart from an error answer.
- RenglonPage.RenglonPageState.VerEmpleados: the `empleadosLoading` flag is left out, like the other loading flags.
- `handleBuscarEmpleadoPorDpi` (rrhh-muni/src/pages/Permisos.jsx:142-181, rrhh-muni/src/pages/Vacaciones.jsx:114-146) is not modelled. It calls `/api/empleados/buscar-por-dpi/:dpi`, and `empleados.routes.js` defines no such route (only `/buscar`, `/` and `/:id`, lines 37, 75, 122). What Express answers for an unknown path is outside the source.
- BACKEND/src/server.js:47-53 mounts no router for `/api/vacaciones` or `/api/permisos`. The vacation and leave routes are modelled as written in their own files, as if they were mounted.
- LeaveRoutes.PermisosListado: the `ORDER BY p.fecha_solicitud DESC, p.id_permiso DESC` (BACKEND/src/routes/permisos.routes.js:60) is not modelled; rows come in table order. Membership and contents are proved by `PermisosListadoMembers`.
- VacationRoutes.Listado: the `ORDER BY` of BACKEND/src/routes/vacaciones.routes.js:30 is not modelled; rows come in table order. Membership and contents are proved by `ListadoMembers`.
- EmployeeRoutes.Buscar: `LIKE '%term%'` is modelled as a literal substring test (`Like`). The wildcards `%`, `_` and `[…]` inside the term are not interpreted, and matching is case-sensitive where the database's collation may not be.
- RenglonRoutes.Asignados: the `e.estado = 'ACTIVO'` of BACKEND/src/routes/renglones.routes.js:22 is exact equality in the model. Under SQL Server's default collation the comparison ignores case and trailing blanks, so an employee stored as "activo" is counted by the database and not by the model.
- RenglonRoutes.AsignadosFilasMembers: the same exact comparison stands for `e.estado = 'ACTIVO'` at BACKEND/src/routes/renglones.routes.js:170, so `EmpleadosDe` lists only employees whose estado is exactly "ACTIVO".
- VacationRoutes.Activos: the same exact comparison stands for `e.estado = 'ACTIVO'` at BACKEND/src/routes/vacaciones.routes.js:239.
- VacationRoutes.FirstByDpi: `e.dpi = @dpi` (BACKEND/src/routes/vacaciones.routes.js:93, and BACKEND/src/routes/permisos.routes.js:100 through `LeaveRoutes.NewPermiso`) is exact equality in the model; the database ignores case and trailing blanks under its default collation, so a DPI sent with a trailing blank finds the employee there and not in the model.
- VacationRoutes.NewVacacion: only the `YYYY-MM-DD` spelling of a date is modelled (`Dates.SqlDate`). SQL Server's implicit conversion also accepts spellings such as "20240105", "2024/01/05" or "2024-01-05T10:00". The route passes those to the insert (BACKEND/src/routes/vacaciones.routes.js:111-112) and the database stores them; the model treats them as refused and answers 500.
- LeaveRoutes.NewPermiso: likewise only the `YYYY-MM-DD` spelling is modelled (BACKEND/src/routes/permisos.routes.js:118-119); other spellings the database would accept are treated as refused, with the 500.
- Collections.SortBy: every `ORDER BY` compares text by code point (`LexLe`), not by the database's collation. Rows with equal keys come out in reverse table order; SQL promises no order among them.
- Numbers.ParseFloatStr and Numbers.ToNumberStr: exponents (`1e3`), `Infinity` and hexadecimal (`0x10`) are not read. Floating-point rounding is not modelled: amounts are exact.
- Numbers.ParseInt: for a number written with an exponent, the model reads the first significant digit of the exact value. `String` writes the shortest double that rounds to the number, which can differ from the exact digits; double precision is not modelled.
- RuleRoutes.ParsedIntsOfNumbers and RulePage.SavedSelection hold for ids below 10^21 in magnitude. Larger numbers are written with an exponent, and `HugeIdNotKept` shows they are not kept. Ids of `INT` keys are always below that bound.
- Text.Trim: its own contract states only the two ends. The fact that just white space is cut is the separate lemma `TrimCutsBlankEnds`, so that the many callers of `Trim` do not carry it.
- Text.ToLower: `LowerChar` lowers ASCII and Latin-1 letters only, and `IsSpace` is the ASCII white space with U+00A0, U+2028, U+2029 and U+FEFF; the other Unicode space separators that `trim` removes are not modelled.
- VacationPage.FromView and EmployeePage.MatchSearch: a NULL DPI or code is read as "". The source calls `includes`/`toLowerCase` on it and throws a `TypeError` (rrhh-muni/src/pages/Vacaciones.jsx:101, rrhh-muni/src/pages/Empleados.jsx:93-94).
- EmployeeRoutes.RowOf: employee dates are stored as the text sent. SQL Server would refuse a text that is no date with a 500 and would normalise an accepted date; `JsonDate` gives the text the date comes back as.
- RenglonRoutes.ParamId: the `:id` of the renglón routes is kept as an exact number. How `sql.Int` converts a fraction or an out-of-range value is the driver's behaviour and is not modelled.
- RenglonRoutes.RenglonStore.Editar: a JSON body whose `codigo` or `nombre` is not a string is not modelled; a missing one fails on the columns' `NOT NULL`, which is assumed.
- RenglonRoutes.GuardKeepsRefs: the foreign key from employees to renglones is an assumption (`RefsResolve`) that the store keeps; the database's own constraint is not modelled.
- EmployeePage.EditWithoutChangesKeepsRow is proved for whole salaries and keys other than 0. `String` of a fractional amount is only modelled up to two decimals (`NumberText`), and a key of 0 is lost by `String(x || "")` (rrhh-muni/src/pages/Empleados.jsx:213-215).
- Descuentos: the discount routes and page are the bonus logic with other names and messages. They are modelled by the same members, with a `RuleKind` parameter.

## Findings

| source | as written | input that shows it | evidently intended | confidence | as-written member | corrected member |
|---|---|---|---|---|---|---|
| BACKEND/src/routes/permisos.routes.js:26 | `(req.body.dpi \|\| "sin_dpi").replace(/\D/g, "")` also erases the placeholder, which has no digit | no `dpi` field, timestamp 5, file "a.pdf": the stored name is "_permiso_5.pdf" | a request without a DPI is stored as "sin_dpi_permiso_5.pdf" | not executed | LeaveRoutes.PlaceholderErased | LeaveRoutes.FirmadoNamesTheDpi |
| rrhh-muni/src/pages/Permisos.jsx:285-286 | the file is appended before the `dpi` field, and Multer names the file while it has parsed only the fields before it | any upload: the storage sees no DPI, so every signed form is "_permiso_<timestamp><ext>" whatever the employee | the `dpi` field first, so the name starts with the employee's DPI | not executed | LeavePage.UploadHidesDpi | LeavePage.UploadShowsDpi |

The store follows the code as written: `LeaveRoutes.LeaveStore.SubirFirmado` records
`FirmadoFilenameAsWritten`. `LeaveRoutes.FirmadoFilename` is the corrected name, and
`LeaveRoutes.FirmadoAgrees` proves that the two agree whenever a DPI with a digit reaches
the storage.
