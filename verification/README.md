# Personal finances with the 80/10/10 rule — a Dafny model

The application keeps a personal budget in two SQLite tables, `ingresos` (incomes) and
`gastos` (expenses). Each income is split by three percentages (80/10/10 by default)
into three buckets:

- *Necesidades*, the necessities;
- *Deseos*, the wants;
- *Ahorro*, the savings.

Each expense carries a category. `clasificar_bucket` maps the category to a bucket:
"deseos" and "ahorro" go to their own buckets, and every other category is a necessity.
The comparison ignores surrounding white space and letter case.

For a month, `resumen_buckets` reports three figures per bucket:

- the budget, which is the shares the incomes assigned to it;
- what was spent in it;
- what is still available.

Savings are only ever accumulated: an expense filed under savings is recorded, but it is
never charged to the savings bucket. The dashboard also shows a net balance: incomes
minus expenses minus the savings share.

The model is split into modules:

- `Buckets` holds the classifier, Python's `str.strip()` and `str.lower()`, and the
  category list.
- `Fecha` holds the `YYYY-MM-DD` date text, its parsing as `datetime.strptime` does it,
  its formatting as `strftime` does it, and SQLite's text order.
- `Tabla` holds the SQL the data-access functions send, modelled once over a sequence of
  rows that share `id`, `fecha`, `anio` and `mes`: the period filter, delete by id,
  `ORDER BY fecha DESC`, and the distinct years.
- `Sumas` holds the column sums.
- `Almacen` holds the database as a class, `Finanzas`. It has the two tables and their
  two AUTOINCREMENT counters as fields, and the insert, query and delete operations.
- `Resumen` holds the period summary and the net balance.

Amounts are real numbers. Dates are text, as the tables store them.

## Model

| member | source | states |
|---|---|---|
| Buckets.Categorias | app.py:20-33 | the twelve expense categories offered, in the source's order; `CategoriasClasificadas` states which bucket each goes to |
| Buckets.ClasificarBucket | app.py:37-49 | the classifier itself; `ClasificarBucketCasos` states its three outcomes as if-and-only-ifs, and `ClasificarIgnoraEspacios` and `ClasificarIgnoraMayusculas` show that padding and letter case do not matter |
| Buckets.EsEspacio | app.py:44 | the characters Python's `str.isspace` accepts, which `strip()` removes; `EspacioMinuscula` shows lower-casing keeps this set |
| Buckets.Recortar | app.py:44 | `str.strip()`, defined as front- then back-stripping; `RecortarBordes` characterises its result as the piece between all-white-space ends |
| Buckets.Minusculas | app.py:44 | `str.lower()` on ASCII letters; `MinusculasRecortarInicio` and `MinusculasRecortarFin` show it commutes with stripping |
| Buckets.Normalizar | app.py:44 | the compared form `strip().lower()`; `NormalizarSinRelleno` shows an unpadded label is only lower-cased |
| Buckets.ClasificarBucketCasos | app.py:44-49 | the category goes to wants exactly when its stripped, lower-cased form is "deseos", to savings exactly when it is "ahorro", and to necessities exactly otherwise |
| Buckets.CategoriasClasificadas | app.py:20-33 | of the twelve offered categories only "Deseos" (wants) and "Ahorro" (savings) leave the necessities bucket |
| Buckets.RecortarInicio | app.py:44 | front-stripping; its own contract is only the length bound, and `RecortarInicioSufijo` characterises it |
| Buckets.RecortarFin | app.py:44 | back-stripping; its own contract is only the length bound, and `RecortarFinPrefijo` characterises it |
| Buckets.RecortarInicioSufijo | app.py:44 | stripping the front keeps a suffix, drops only white space and leaves no leading white space |
| Buckets.RecortarFinPrefijo | app.py:44 | stripping the back keeps a prefix, drops only white space and leaves no trailing white space |
| Buckets.RecortarBordes | app.py:44 | `strip()` returns a contiguous piece of the label, with only white space cut on each side and none left at either end |
| Buckets.RecortarInicioRelleno | app.py:44 | leading white space does not change the front-stripped label |
| Buckets.RecortarFinRelleno | app.py:44 | trailing white space does not change the back-stripped label |
| Buckets.RecortarInicioConcat | app.py:44 | front-stripping `s + q` reaches into `q` only when `s` is all white space |
| Buckets.RecortarRelleno | app.py:44 | white space added on both sides of a label does not change its stripped form |
| Buckets.ClasificarIgnoraEspacios | app.py:44-47 | padding a category with white space does not change its bucket |
| Buckets.EspacioMinuscula | app.py:44 | lower-casing a character does not change whether it is white space |
| Buckets.MinusculasRecortarInicio | app.py:44 | lower-casing commutes with stripping the front |
| Buckets.MinusculasRecortarFin | app.py:44 | lower-casing commutes with stripping the back |
| Buckets.ClasificarIgnoraMayusculas | app.py:44-47 | two categories that differ only in letter case go to the same bucket |
| Buckets.NormalizarSinRelleno | app.py:44 | a label with no white space at its ends is only lower-cased by the normalisation |
| Fecha.Digito | app.py:451 | each digit written by `strftime` is a decimal digit |
| Fecha.Relleno | app.py:451 | a zero-padded number has exactly the requested width and consists of digits |
| Fecha.DiasDelMes | app.py:134 | a month has 28 to 31 days; the body gives February 29 days in Gregorian leap years and 28 otherwise |
| Fecha.FechaValida | app.py:134 | the dates `datetime` accepts: years 1..9999, months 1..12, and a day within the month's length |
| Fecha.ParseFecha | app.py:134-136 | a text that parses names a real calendar date in years 1..9999 and has the `YYYY-MM-DD` shape |
| Fecha.FormatoFecha | app.py:451 | formatting a valid date gives the `YYYY-MM-DD` shape |
| Fecha.NumeroRelleno | app.py:134-136 | reading back a zero-padded number gives the number |
| Fecha.RellenoNumero | app.py:134-136 | a digit string is the zero-padded form of its own value |
| Fecha.ParseFormato | app.py:134-136 | parsing the formatted text of a valid date gives that date back |
| Fecha.FormatoParse | app.py:134-136 | every text that parses is the formatted form of the date it names, so the stored text is canonical |
| Fecha.TextoMenorIgual | app.py:192 | SQLite's default text comparison, code point by code point with a proper prefix first; the four lemmas below show it is a total order |
| Fecha.TextoReflexivo | app.py:192 | text order is reflexive |
| Fecha.TextoTotal | app.py:192 | any two texts are comparable |
| Fecha.TextoTransitivo | app.py:192 | text order is transitive |
| Fecha.TextoAntisimetrico | app.py:192 | texts that precede each other are equal |
| Fecha.TextoConcat | app.py:192 | behind equally long heads, text order is decided by the heads unless they are equal |
| Fecha.RellenoInyectivo | app.py:192 | zero-padded numbers of one width are equal exactly when the numbers are |
| Fecha.RellenoOrden | app.py:192 | zero-padded numbers of one width compare as text exactly as they compare as numbers |
| Fecha.TextoFormato | app.py:192 | formatted dates compare by the year text, then the month text, then the day text |
| Fecha.OrdenCronologico | app.py:192 | the text order of formatted dates is exactly the calendar order |
| Tabla.EnPeriodo | app.py:185-190 | the three filter modes: year and month, year only, or no filter, with a month given without a year ignored; `FiltrarTodo` and `MesSinAnioIgnorado` state the last case |
| Tabla.Filtrar | app.py:185-190 | the period filter keeps exactly the rows of the period: every kept row is in the table and the period, and every row of the period is kept |
| Tabla.FiltrarTodo | app.py:185-190 | a month given without a year filters nothing, and neither does no filter |
| Tabla.FiltrarAgregar | app.py:185-190 | appending a row adds it to the filtered rows exactly when it lies in the period |
| Tabla.SinId | app.py:228 | the delete keeps only rows of the table, none with the deleted id |
| Tabla.SinIdConservaOtras | app.py:228 | every row with another id survives the delete |
| Tabla.SinIdAusente | app.py:228 | deleting an id no row has changes nothing |
| Tabla.SinIdPresente | app.py:228 | with increasing ids, deleting the id of row `k` removes exactly row `k` |
| Tabla.IdsCrecientesCola | app.py:99 | the tail of a table with increasing ids has increasing ids, all above the first |
| Tabla.IdsCrecientesCons | app.py:99 | a row below all the ids of a table can head it |
| Tabla.FilasDe | app.py:228 | a property every row of a table has is had by every row taken from it |
| Tabla.SinIdConservaIds | app.py:99 | a delete keeps the ids positive, increasing and below the next id |
| Tabla.SinIdEspecificacion | app.py:228 | the delete keeps the id invariant, changes nothing for a missing id, and removes exactly the matching row otherwise |
| Tabla.InsertarPorFecha | app.py:192 | inserting into the sorted rows adds exactly that row |
| Tabla.InsertarPorFechaOrdena | app.py:192 | inserting into rows sorted latest-first keeps them sorted |
| Tabla.OrdenarPorFechaDesc | app.py:192 | sorting keeps exactly the same rows, as a multiset |
| Tabla.OrdenarPorFechaDescOrdena | app.py:192 | the sorted rows are ordered latest-first by their date text |
| Tabla.MismasFilas | app.py:192 | every sorted row is an input row and every input row is in the sorted result |
| Tabla.OrdenDescCronologico | app.py:192 | rows sorted latest-first by text, whose dates parse, are sorted latest-first by calendar date |
| Tabla.InsertarAnio | app.py:249 | adding a year keeps the list strictly decreasing and adds exactly that year |
| Tabla.Distintos | app.py:249 | the distinct years are strictly decreasing and are exactly the years present |
| Tabla.Anios | app.py:249 | the years listed for a table are exactly the years its rows carry, which is what `SELECT DISTINCT anio` draws from |
| Almacen.Monto | app.py:139-141 | a share of a non-negative income at a percentage in 0..100 lies between 0 and the income |
| Almacen.MontosSumanTotal | app.py:139-141 | when the percentages add up to 100 the three shares add up to the income |
| Almacen.IngresoAdmisible | app.py:516 | the income form's check: a concept, a positive value, percentages summing to 100, each kept to 0..100 by its widget (app.py:485-493); `IngresoAdmisibleReparte` states what it guarantees |
| Almacen.GastoAdmisible | app.py:449 | the expense form's check: a concept and a positive value; `GastoAdmisibleDescuenta` states what it guarantees |
| Almacen.IngresoAdmisibleReparte | app.py:516 | an income the form lets through is split into three shares that are each between 0 and the income and add up to it |
| Almacen.SinIdIngresosCoherentes | app.py:228 | deleting an income keeps every remaining row's date and shares consistent |
| Almacen.SinIdGastosCoherentes | app.py:238 | deleting an expense keeps every remaining row's date consistent |
| Almacen.Finanzas.Valid | app.py:97-171 | the store invariant: ids increase along each table and stay below its AUTOINCREMENT counter, every stored date parses to the row's year and month, and every income's shares are its percentages of its value; the constructor establishes it and every insert and delete keeps it, and `IngresosCronologicos`, `GastosCronologicos` and the delete contracts rely on it |
| Almacen.Finanzas.constructor | app.py:97-125 | a fresh database has both tables empty and both id counters at 1 |
| Almacen.Finanzas.InsertarIngreso | app.py:130-155 | the insert succeeds exactly when the date parses; otherwise nothing changes. On success it appends one row: the next id, which no row has; year and month from the date; and the three derived shares. That row joins exactly the periods it lies in |
| Almacen.Finanzas.InsertarGasto | app.py:157-174 | the insert succeeds exactly when the date parses; otherwise nothing changes. On success it appends one row with the next id and the date's year and month, and that row joins exactly the periods it lies in |
| Almacen.Finanzas.ObtenerIngresos | app.py:176-197 | the query returns exactly the period's rows, as a multiset, ordered latest date first |
| Almacen.Finanzas.ObtenerGastos | app.py:199-220 | the query returns exactly the period's rows, as a multiset, ordered latest date first |
| Almacen.Finanzas.IngresosCronologicos | app.py:192 | in a consistent database the income query lists rows in decreasing calendar order |
| Almacen.Finanzas.GastosCronologicos | app.py:215 | in a consistent database the expense query lists rows in decreasing calendar order |
| Almacen.Finanzas.MesSinAnioIgnorado | app.py:185-190 | a month given without a year is ignored, and both queries then return every row |
| Almacen.Finanzas.EliminarIngreso | app.py:222-230 | the delete removes the rows with that id and keeps the others in order. A missing id changes nothing. The expense table and both counters are untouched |
| Almacen.Finanzas.EliminarGasto | app.py:232-240 | the delete removes the rows with that id and keeps the others in order. A missing id changes nothing. The income table and both counters are untouched |
| Almacen.Finanzas.ObtenerAniosDisponibles | app.py:242-254 | the years are strictly decreasing and never empty; they are exactly the years of the stored rows, or the current year alone when both tables are empty |
| Resumen.DelBucket | app.py:69-71 | the expenses selected for a bucket are all classified into it |
| Resumen.ResumenBuckets | app.py:51-86 | savings spending is 0; available is budget minus spending for necessities and wants, and the budget for savings; no rows give zeros; necessities plus wants plus savings-filed expenses is all the spending |
| Resumen.Presupuesto | app.py:61-65 | the budget dictionary, each bucket's shares summed; zeros for no incomes; `ResumenTrasIngreso` states how one income changes it |
| Resumen.Gastado | app.py:67-74 | the spending dictionary; savings is always 0 and no expenses give zeros; `GastadoTrasGasto` states how one expense changes it |
| Resumen.Cargar | app.py:67-74 | charging a value to a bucket raises that bucket by the value, except savings, and leaves the other buckets as they were |
| Resumen.SaldoNeto | app.py:298-301 | the dashboard's net balance, incomes minus expenses minus the savings shares; `SaldoNetoDesglose` and `MesDeEjemplo` state its value |
| Resumen.GastosPorBucket | app.py:67-74 | the three buckets partition the expenses, so their totals add up to the total spent |
| Resumen.DelBucketCuenta | app.py:69-71 | a bucket keeps every copy of an expense classified into it and none of the others |
| Resumen.DelBucketPermutacion | app.py:69-71 | reordering the expenses only reorders each bucket's expenses |
| Resumen.ResumenSinOrden | app.py:58-59 | the summary depends only on the period's rows, not on their order |
| Resumen.ResumenDelAlmacen | app.py:58-59 | the summary of what the queries return equals the summary of the period's rows in table order |
| Resumen.DelBucketAgregar | app.py:69-71 | one more expense adds its value to its own bucket's total only |
| Resumen.DelBucketPartir | app.py:69-71 | the bucket selection of joined expense lists is the join of the selections |
| Resumen.ResumenTrasGasto | app.py:449-457 | recording an expense leaves the budgets unchanged and charges its value to its own bucket; savings are never charged |
| Resumen.ResumenTrasGastoDeAhorro | app.py:441-442 | an expense filed under savings leaves the whole summary unchanged |
| Resumen.GastoAdmisibleDescuenta | app.py:418-425 | an expense the form lets through lowers the available amount of its necessities or wants bucket by exactly its value, and leaves the other buckets as they were |
| Resumen.GastadoTrasGasto | app.py:67-74 | the spending after one more expense is the old spending charged with its value in its bucket |
| Resumen.ResumenTrasIngreso | app.py:61-65 | recording an income adds its three shares to the budgets and changes no spending |
| Resumen.IngresosRepartidos | app.py:516 | when every income was split at 100%, the incomes total the three budgets |
| Resumen.SaldoNetoDesglose | app.py:298-301 | with incomes split at 100%, the net balance equals available necessities plus available wants minus the expenses filed under savings |
| Resumen.MesDeEjemplo | app.py:51-86 | for a salary of 1000 split 80/10/10 and a 150 market expense in one month: necessities show 800/150/650, wants 100/0/100, savings 100/0/100, and the net balance is 750 |
| Sumas.Suma | app.py:62-64 | pandas' `Series.sum()` over a column, exact over reals and 0 for no rows; `SumaConcat` and `SumaPermutacion` state that it is additive and independent of row order |
| Sumas.SumaConcat | app.py:62-64 | a column sum over two joined lists is the sum of the two sums |
| Sumas.SumaPermutacion | app.py:62-64 | a column sum does not depend on the order of the rows |

## Left out

- The Streamlit interface is not modelled: tabs, widgets, messages, metrics and charts.
  The form checks at app.py:449 and app.py:516 appear as the predicates
  `GastoAdmisible` and `IngresoAdmisible`, which the lemmas above take as hypotheses.
  The store itself accepts any row, as the source's functions do.
- SQLite and pandas I/O are not modelled: connections, commits and storage errors.
  The database is the `Finanzas` object, and a data frame is a sequence of rows.
  `inicializar_base_datos` becomes the constructor of a fresh, empty database.
- The current year of `datetime.now()` is a parameter of `ObtenerAniosDisponibles`.
- Fecha.ParseFecha: accepts only the zero-padded `YYYY-MM-DD` form with ASCII digits.
  `strptime` also accepts three more kinds of text. It accepts unpadded months and days,
  such as `2024-3-5`. It accepts a day padded with a space, such as `2024-03- 5`. And it
  accepts any Unicode decimal digit, such as Arabic-Indic digits, for `\d`. For such text
  `InsertarIngreso` and `InsertarGasto` return `ok == false` and change nothing.
  `insertar_ingreso` and `insertar_gasto` (app.py:134, app.py:161) instead store the row
  with that non-canonical text. `FormatoParse`, `OrdenDescCronologico`,
  `IngresosCronologicos` and `GastosCronologicos` rely on every stored date being
  canonical. The entry forms always pass the padded ASCII form, because `strftime`
  writes it (app.py:451, app.py:518).
- Fecha.FormatoFecha: pads years below 1000 to four digits. Some C libraries' `strftime`
  do not do this.
- Amounts are exact reals. IEEE floating-point rounding, in the share products and in the
  sums, is not modelled.
- Buckets.Minusculas: lower-cases only the ASCII letters. Python's `str.lower()` also
  maps other scripts. No other character lower-cases to a letter of "deseos" or "ahorro",
  so the bucket does not change.
- A row's own columns are not checked against their SQL types, and the
  `NOT NULL` constraints are not modelled. The AUTOINCREMENT counter is
  unbounded, so reaching SQLite's maximum row id is not modelled.
- Concurrent access to the database file is not modelled.
- The percentage preview (app.py:502-511) and the pre-save balance panel
  (app.py:408-411) repeat `Monto` and `SaldoNeto` for display and are not modelled
  separately.
- The category chart (app.py:355) groups the period's expenses by their category text as
  written and sums each group. It is display only and is not modelled. No member computes
  these per-category sums: the chart keeps "Deseos" and " deseos" apart, while the
  classifier puts both into the wants bucket.
- The post-save balance (app.py:458-460) is a different formula: incomes minus expenses,
  without subtracting the savings shares. It is not modelled.
- ObtenerIngresos and ObtenerGastos promise the period's rows sorted latest date first.
  The order among rows with the same date is left open, as it is in SQL.
