# Tax-aware ledger for a small Chilean shop

This project models the ledger behind a small shop's bookkeeping web app.

The server side is a JSON API over four tables:
- `productos`: products with net unit cost, net unit price and stock;
- `movimientos_caja`: cash movements;
- `ventas`: sales;
- `compras`: purchases and expenses.

It registers three kinds of writes: a plain cash movement, a sale and a purchase. A sale or purchase splits its tax-inclusive amount into net and VAT (IVA, 19%), and each one runs as a single transaction. The API also answers range listings, balances and dashboard sums.

The browser side computes:
- the running balance of the cash book;
- the net and VAT totals under the two tax registers (RCV, the register of purchases and sales);
- the live breakdowns of the sale and purchase forms;
- a stock check before a sale is sent;
- a CSV export of any report table.

Modules:
- `Iva`: the VAT split.
- `Calendar`: day and month boundaries of timestamps.
- `Tables`: what the SQL engine does, namely `WHERE fecha` range filters and `ORDER BY` (modelled as an insertion sort).
- `Records`: the rows, the sums over them, and the case-insensitive `=` the queries use on `tipo`.
- `Ledger`: the API as class `Libro`. The pure functions `EfectoMovimiento`, `EfectoVenta` and `EfectoCompra` state each write's effect on the whole state. The methods perform the writes statement by statement, with an injected failure point (`falla`) standing for a database error. The class keeps the invariant `Valid`:
  - stock equals opening stock plus purchases minus sales;
  - every row satisfies net + VAT = gross;
  - each sale and purchase has its own cash movement.
- `Csv`: the export. A reader of the format (`ParseCsv`) is defined only to state the round-trip property of the export.
- `Client`: the other browser computations.

## Model

| member | source | states |
|---|---|---|
| Iva.Desglosar | api.php:124-125 | The split that `addVenta` (api.php:124-125) and `addCompra` (api.php:195-196) compute on a gross amount: neto × 1.19 = gross, neto + iva = gross, iva = neto × 0.19. Both parts are positive for a positive gross. |
| Iva.Neto | api.php:124-126 | The net unit price is gross / 1.19 exactly (net × 1.19 = gross). For a positive price it lies strictly between 0 and the gross. |
| Iva.RoundTrip | api.php:22-24 | Splitting and re-adding VAT are inverse both ways. |
| Iva.ShareOfVat | api.php:124-125 | The VAT part of a gross amount is always the same share of it: iva × 1.19 = gross × 0.19. |
| Iva.NetoLineal | api.php:124-126 | The net part of q units at a gross unit price is q times the net unit price. |
| Ledger.VentaRegistrada | api.php:122-126 | The stored sale keeps the sent gross total, satisfies the VAT identity, and its net unit price times 1.19 is the sent unit price. Date, product, quantity, payment method and document number are stored as sent. |
| Ledger.CompraRegistrada | api.php:192-196 | The stored purchase keeps the sent gross total and satisfies the VAT identity. Date, product, quantity, concept and document number are stored as sent. |
| Ledger.MovimientoRegistrado | api.php:90-100 | The stored movement has the call's timestamp and every other field exactly as sent. |
| Ledger.IngresoDe | api.php:154-160 | A sale's cash row is an `ingreso` of the sale's whole gross total, dated with the sale, paid by the sale's method, tax-relevant and linked to its document. It raises the balance by that total. |
| Ledger.EgresoDe | api.php:207-214 | A purchase's cash row is an `egreso` of its whole gross total by bank transfer, dated with the purchase, tax-relevant and linked to its document. It lowers the balance by that total. |
| Ledger.ConceptoVenta | api.php:155 | Defines the concept text of a sale's cash row, "Venta de productos (Doc: n)". |
| Ledger.ConceptoCompra | api.php:208 | Defines the concept text of a purchase's cash row, "Compra/Gasto (Doc: n): concepto". |
| Ledger.NombreDe | api.php:320-322 | Defines the joined product name: the product's name, or none when no product has the id. |
| Ledger.UnirVentas | api.php:320-322 | The LEFT JOIN of the sales with the products: one row per sale, in table order, with its product's name or none. |
| Ledger.UnirCompras | api.php:363-364 | The LEFT JOIN of the purchases with the products: one row per purchase, with none for a NULL or unknown product. |
| Records.Acredita | api.php:218 | Defines `$producto_id && $cantidad`: a purchase moves stock only when both are present and non-zero. |
| Ledger.StockDe | api.php:133-138 | The stock read is present exactly when the product exists, and is then its stored stock. |
| Ledger.SuperaStock | api.php:140 | For an existing product, the sale is refused exactly when it would leave the stock negative. For a missing one (NULL), exactly when the quantity is non-zero. |
| Ledger.Listar | api.php:240-243 | A listed product keeps id, name and stock, and its two prices are shown VAT-inclusive: their net part is the stored net price. |
| Iva.ConIva | api.php:241-242 | Adding VAT to a net amount gives a price whose net part is that amount. |
| Ledger.EfectoMovimiento | api.php:89-108 | Adding a movement succeeds exactly when its insert does not fail. On success the movements become the old ones followed by `MovimientoRegistrado` of the request, and the other tables are unchanged. On failure nothing changes. |
| Ledger.EfectoVenta | api.php:114-176 | A sale is refused for stock exactly when the quantity exceeds the stock read. It fails on any database error. Either way the state is unchanged. On success the sold product's stock drops by exactly the quantity and stays at or above 0, and no other product changes. Exactly one sale and one `ingreso` movement are appended. Purchases are untouched. |
| Ledger.EfectoCompra | api.php:182-232 | A purchase succeeds unless an insert fails, or the stock update fails when it runs. On failure nothing changes. On success exactly one purchase and one `egreso` movement are appended. Stock rises by the quantity only when both product and quantity are non-zero. Sales are untouched. |
| Ledger.VentasSucesivasDecididas | api.php:133-144 | In a run of sales, each one succeeds exactly when its quantity does not exceed the stock left by the earlier ones. |
| Ledger.VentasNoAgotanBajoCero | api.php:133-170 | No run of sales takes a non-negative stock below zero. |
| Ledger.EjemplosVenta | api.php:114-176 | Worked sales: a quantity above stock is refused. 2 units at 1190 store net 2000, VAT 380 and a 2380 inflow. A missing product refuses a non-zero quantity and lets 0 through. |
| Ledger.ConsistenteVenta | api.php:147-170 | A successful sale keeps stock reconciled, every row balanced, and each sale linked to its own inflow. |
| Ledger.ConsistenteCompra | api.php:199-231 | A successful purchase keeps the same invariant. |
| Ledger.Libro.Rollback | api.php:172-175 | Rollback restores all four tables to their state at `begin_transaction`. |
| Ledger.Libro.AddMovimientoCaja | api.php:89-108 | The new state and result are exactly `EfectoMovimiento`, and the ledger invariant is kept. |
| Ledger.Libro.PasosVenta | api.php:115-170 | The statements of a sale, run in order, give `EfectoVenta`'s result, and on success its state. |
| Ledger.Libro.AddVenta | api.php:114-176 | All or nothing: the result and new state are exactly `EfectoVenta`, and on failure the rollback restores the old state. The invariant is kept. |
| Ledger.Libro.PasosCompra | api.php:183-231 | The statements of a purchase give `EfectoCompra`'s result, and on success its state. |
| Ledger.Libro.AddCompra | api.php:182-232 | All or nothing: the result and new state are exactly `EfectoCompra`. The invariant is kept. |
| Ledger.Libro.GetProducts | api.php:238-251 | Every product is listed exactly once, with prices shown VAT-inclusive (their net part is the stored price), sorted by name. |
| Ledger.Libro.GetLibroCaja | api.php:256-290 | Lists exactly the movements with start 00:00:00 ≤ fecha ≤ end 23:59:59, each bound only when given, in ascending fecha, as a permutation of the matching rows. |
| Ledger.Libro.GetRcvVentas | api.php:318-355 | Lists exactly the in-range sales joined with their product name (none when missing), in ascending fecha. |
| Ledger.Libro.GetRcvCompras | api.php:361-397 | Lists exactly the in-range purchases joined with their product name, in ascending fecha. |
| Ledger.Libro.GetSaldoCaja | api.php:402-407 | The balance is 0 with no movements. For every day it equals the balance before that day plus the movements from that day on. |
| Ledger.Libro.GetLibroCajaSaldoInicial | api.php:296-312 | 0 without a date. Otherwise, added to the signed sum of the movements from that day on, it gives the current balance. |
| Ledger.Libro.GetTotalVentasMes | api.php:412-423 | The result is the net total of the sales dated from the month's first second to its last second, both included. It is 0 with no sales. |
| Ledger.VentasDelMes | api.php:413-415 | The query's half-open window ending one second after `fin` holds exactly the sales of the closed window up to `fin`. With balanced rows, their net sum times 1.19 is their gross sum. |
| Records.NetoVentasDesdeHasta | api.php:415 | Defines `SUM(monto_neto_total)` over the sales with `lo <= fecha < hi`, 0 for none. |
| Records.NetoVentasEntreSemiabierto | api.php:415 | On whole-second timestamps, `fecha < hi + 1` selects the same sales as `fecha <= hi`, so the two net sums agree. |
| Ledger.Libro.FlujoDelMes | api.php:432-452 | `ingresos` is the total of the month's movements whose `tipo` equals "ingreso" (case-insensitively), and `egresos` likewise for "egreso". Each is 0 when no movement of the month matches (`?? 0`). When every movement of the month is one of the two, their difference is the month's signed cash change. |
| Ledger.FlujoPorTipo | api.php:437-452 | For any window, a column with no matching movement is 0, and with only the two kinds present inflow minus outflow is the signed change. |
| Ledger.MesesSeguidos | api.php:431-451 | Six entries labelled from five months back to the current month run one month apart and end at the current month. |
| Ledger.Libro.GetMonthlyCashFlow | api.php:428-456 | Exactly 6 entries, for the months 5 back to the current one, oldest first, each month followed by the next. |
| Records.SaldoPartido | api.php:296-311 | The balance before a day plus the signed sum from that day on is the total signed sum. |
| Records.SumaConSignoSort | api.php:256-290 | Reordering the rows does not change their signed sum. |
| Records.FlujoEsSaldo | api.php:437-453 | Inflow minus outflow equals the signed change when every `tipo` compares equal to "ingreso" or "egreso". |
| Records.SumaTipoEntreCero | api.php:437-452 | The conditional sum of a window with no movement of the `tipo` is 0. |
| Records.SumaTipoEntrePeriodo | api.php:437-440 | The `SUM(CASE WHEN tipo = t …)` over `fecha BETWEEN lo AND hi` is the plain total of `tipo` t over the movements of that period. |
| Records.DelPeriodoFiltra | api.php:440 | The period's rows are exactly the movements with lo ≤ fecha ≤ hi. |
| Records.PeriodoEsVentana | api.php:434-440 | `BETWEEN` the first day's 00:00:00 and the last day's 23:59:59 selects the same rows, in the same order, as the day window that `get_libro_caja` uses. |
| Records.DelPeriodo | api.php:440 | Defines `WHERE fecha BETWEEN ? AND ?`: the movements with lo ≤ fecha ≤ hi, in table order. |
| Records.IgualSqlHechos | api.php:299 | The `tipo` comparison is reflexive and ignores letter case ("Ingreso" equals "ingreso"), and "Ingreso" differs from "egreso". |
| Records.SumaConSigno | api.php:403 | Defines the balance of `get_saldo_caja`: the sum of the signed amounts of all movements, 0 for none. |
| Records.SumaConSignoAntes | api.php:299-303 | Defines the sum of the signed amounts of the movements strictly before a timestamp (`fecha < ?`). |
| Records.ConSigno | api.php:299 | A movement counts positive when its `tipo` equals "ingreso" under the column's case-insensitive comparison, negative otherwise. |
| Records.IgualSql | api.php:437-438 | Defines the `tipo = '…'` comparison of the queries (also api.php:299 and 403): equal length and equal characters up to ASCII letter case. |
| Records.SumaTipoEntre | api.php:437-440 | Defines the conditional monthly sum: the amounts of the movements in [lo, hi] whose `tipo` matches. |
| Records.NetoVentasCuadra | api.php:412-423 | The net sum times 1.19 is the gross sum when every sale is balanced. |
| Tables.LexLe | api.php:244 | Defines name order by character code: a prefix comes first, otherwise the first differing character decides. |
| Records.ProductoAntes | api.php:244 | Defines `ORDER BY nombre` on listed products through `LexLe`. |
| Records.MovAntes | api.php:276 | Defines `ORDER BY fecha ASC` on movements. |
| Calendar.DayStart | api.php:264 | Defines a day's `00:00:00` as a timestamp. |
| Calendar.DayEnd | api.php:269 | Defines a day's `23:59:59` as a timestamp. |
| Calendar.MonthStart | api.php:413 | Defines `Y-m-01 00:00:00`, the first second of a month. |
| Calendar.MonthEnd | api.php:435 | Defines `Y-m-t 23:59:59`, the last second of a month's last day. |
| Tables.Ventana | api.php:262-270 | The window keeps only rows within the bounds given, and every row within them. |
| Tables.EnRango | api.php:262-270 | Defines the optional bounds `fecha >= ?` (start day at 00:00:00) and `fecha <= ?` (end day at 23:59:59), as also built at api.php:326-335 and 368-377. |
| Tables.SortBy | api.php:276 | Defines the `ORDER BY` of the selects (also api.php:244, 341 and 383) as an insertion sort, which keeps rows that compare equal in table order. |
| Tables.SelectOrderBy | api.php:256-290 | A range select ordered by a total preorder returns exactly the in-range rows, sorted, as a permutation. |
| Tables.SortBySortsAndPermutes | api.php:276 | The sort orders and permutes. |
| Calendar.MonthEndMeetsNext | api.php:413-415 | The next month starts one second after the month's last second. |
| Calendar.MonthsBackStep | api.php:432-435 | Stepping back i+1 months and forward one is stepping back i months. |
| Calendar.MonthsBack | api.php:432-435 | Defines `strtotime("-$i month")` as the month whose index is i less. |
| Calendar.NextMonth | api.php:414 | Defines `strtotime('+1 month')` as the month whose index is one more. |
| Csv.RemoveFirstAt | script.js:671 | `replace('$', '')` removes only the first `$`, keeping what is before and after it. |
| Csv.RemoveAllCount | script.js:671 | The global `.` replace removes every `.` and keeps every other character's count. |
| Csv.RemoveAllAbsent | script.js:671 | A cell without `.` is left unchanged by the global replace. |
| Csv.ReplaceFirstUpdates | script.js:673-675 | `replace(',', '.')` changes only the first comma, in place. |
| Csv.RemoveFirst | script.js:671 | Defines `replace(c, '')` with a string pattern: the first `c`, if any, is removed. |
| Csv.RemoveAll | script.js:671 | Defines the global `replace(/\./g, '')`: every `.` is removed. |
| Csv.ReplaceFirst | script.js:674 | Defines `replace(',', '.')`: the first comma, if any, becomes a point. |
| Csv.CleanCell | script.js:669-675 | Defines the cleaning of one body cell: the first `$` removed, every `.` removed, then the first `,` made a `.`. |
| Csv.Escape | script.js:662 | Defines the doubling of every `"` in a header or cell. |
| Csv.Quote | script.js:676 | Defines a field as the escaped text between double quotes. |
| Csv.QuoteAll | script.js:662 | Defines the header `forEach`: each header text quoted, in order. |
| Csv.CleanRow | script.js:668-677 | Defines the cell `forEach` of one body row: each cell cleaned, in order (quoting follows in `Line`). |
| Csv.CleanCellCounts | script.js:669-675 | After cleaning, one `$` and one `,` fewer (when present), exactly one `.` if there was a comma (else none), and all other characters kept. |
| Csv.CleanAmountExample | script.js:669-675 | "$1.234,56" becomes "1234.56". |
| Csv.CleanFirstCommaExample | script.js:672-675 | Only the first comma becomes a point: "1,5,7" becomes "1.5,7". |
| Csv.Join | script.js:663 | Defines `join` with a separator: the parts with one separator between neighbours. |
| Csv.Line | script.js:678 | Defines a line of the file: the quoted cells joined with `;`. |
| Csv.CsvText | script.js:681 | Defines the file text: the header line, then one line per cleaned body row, joined with `\n`. |
| Csv.ReadBodyEscape | script.js:662 | Doubling quotes is undone by reading the quoted field back, whatever it holds. |
| Csv.FieldsRoundTrip | script.js:676-678 | A line of quoted cells joined with `;` reads back as those cells. |
| Csv.CsvRoundTrip | script.js:660-681 | The exported text reads back as the header row followed by the cleaned body rows: rows + 1 lines. |
| Csv.ExportTableToCsv | script.js:653-681 | The export loop builds exactly the layout text, which reads back as headers plus cleaned rows. |
| Client.SaldoDePartida | script.js:420 | The starting balance is the parsed `saldo_inicial`, or 0 when it is NaN. |
| Client.SaldosLibroCaja | script.js:420-430 | Row k of the balance column is the parsed start (0 if NaN) plus the browser's signed sum of rows 0..k (`tipo === 'ingreso'` exactly). Each row is the previous one plus its own signed amount. |
| Client.ConSignoJs | script.js:430 | Defines the browser's signed amount: `tipo === 'ingreso'`, compared exactly, adds the amount, anything else subtracts it. |
| Client.SumaJsEsSql | script.js:430 | Where no `tipo` is a differently-cased "ingreso", the browser's signed sum equals the server's. |
| Client.SaldoDivergeConMayusculas | script.js:430 | A movement stored as "Ingreso" counts +100 on the server and −100 in the browser. |
| Client.SaldoFinalEsSaldoCaja | script.js:416-430 | Starting from `saldo_inicial` for day d and listing from d on, the last balance is the current cash balance, provided every `tipo` the server reads as "ingreso" is spelt exactly so. |
| Client.TotalesRcvVentas | script.js:469-479 | `totalNeto` and `totalIVA` are the sums of the rows' net and VAT. With balanced rows they add up to the gross total, and net × 1.19 = gross. |
| Client.TotalesRcvCompras | script.js:504-519 | The same for the purchase register. |
| Client.RcvVentasCuadran | api.php:318-355 | Every row the sales register lists from a valid ledger is balanced. |
| Client.RcvComprasCuadran | api.php:361-397 | Every row the purchase register lists from a valid ledger is balanced. |
| Client.TotalesVenta | script.js:132-150 | Cleared exactly when the quantity or price is NaN or ≤ 0. Otherwise total = quantity × price, net × 1.19 = total, net + VAT = total, the same split the server makes, both parts positive. |
| Client.TotalesVentaNetoUnitario | script.js:142-144 | The form's net total is quantity times the net unit price the server stores. |
| Client.TotalesCompra | script.js:156-170 | Cleared exactly when the total is NaN or ≤ 0. Otherwise it is the server's split of the total. |
| Client.ChequeoStock | script.js:313-319 | Blocks the sale exactly when the quantity exceeds the listed stock, an absent stock counting as 0. A NaN on either side sends it. A missing `<option>` aborts. |
| Client.ChequeoStockCoincide | script.js:313-319 | With the stock `get_products` listed, the browser blocks exactly the sales the server refuses for stock. |

## Left out

- HTTP routing, JSON encoding and decoding, the MySQL connection and the charset are not modelled. They carry no ledger logic. A database error is modelled only as the statement at which it happens (`falla`).
- `real_escape_string` is applied before binding to `tipo`, `concepto`, `medio_pago`, `metodo_pago` and `n_documento`, so such a string holding a quote, backslash, NUL, CR, LF or Ctrl-Z is stored with added backslashes. The model stores these strings as sent, which matches the code only for strings without those characters. `doc_tributario_asociado` is bound straight from the request (api.php:100), so for that field the model is exact.
- Error reporting: the model assumes mysqli's strict mode, the default since PHP 8.1 (the code never calls `mysqli_report`). A failing statement then throws, and in `addVenta`/`addCompra` the catch rolls back. In silent mode a failed `execute` would fall through to `commit` and keep the earlier statements; that mode is not modelled. In `addMovimientoCaja` the `else` branch (api.php:104-105) is then unreachable, since a failure is an uncaught exception; `ErrorBaseDatos(InsertarMovimiento)` stands for either.
- The `=` on `tipo` follows a case-insensitive collation, the server default for utf8mb4 (the schema is not part of this model). Only ASCII letter case is folded: accent-insensitivity and trailing-space padding are not modelled. The browser compares exactly, so a differently-cased "ingreso" makes the two balances differ (`Client.SaldoDivergeConMayusculas`).
- Concurrency is not modelled. `SELECT … FOR UPDATE` only matters between concurrent sessions, and each write here is one sequential step.
- Floating point, `DECIMAL` rounding, `toFixed` and `toLocaleString` are not modelled. Amounts are exact reals, so the VAT identity holds exactly. `parseFloat`/`parseInt` results are modelled as a number or NaN (`None`).
- The clock is not modelled. `date('Y-m-d H:i:s')` becomes the `fecha` parameter, and "now" for the dashboard is a `YearMonth` parameter.
- Timestamps are seconds from a fixed origin, and date strings are parsed into day numbers. `strtotime("-$i month")` is a plain month decrement, without PHP's day overflow at month ends.
- Ledger.Libro.GetTotalVentasMes: the end of the window is the first of the month of `strtotime('+1 month')` (api.php:414). That skips a month whenever today's day number does not exist in the next month: on 29 January of a common year, on 30–31 January, and on 31 March, May, August and October. On 31 March, for instance, the window is [1 March, 1 May). The model ends the window at the first of the next month. The reported total is the same either way, because every sale is stamped with the time of its own call (api.php:117), so at the time of the query the skipped-over month holds no sale.
- Driver binding quirks (`medio_pago` bound as `i`, `metodo_pago` as `d`) are not modelled. Strings are stored as given.
- Ledger.EfectoVenta: when no product has the id, the code compares the quantity with `null`. PHP compares that as booleans, so a non-zero quantity is refused for stock and a zero quantity is sold. The sale row is still inserted (no foreign key is assumed), and the stock update touches no row. The model follows the code here rather than treating a missing product as an error.
- Ties in `ORDER BY`: the contracts of `Tables.SelectOrderBy`, `Ledger.Libro.GetLibroCaja`, `Ledger.Libro.GetRcvVentas` and `Ledger.Libro.GetRcvCompras` state the result as `SortBy` of the table, a stable sort, so they fix rows that compare equal in table order. SQL does not guarantee that order. `Client.SaldosLibroCaja`'s per-row balances hold for the rows in the order given, so between rows with the same `fecha` they are the balances of that one order; the final balance does not depend on it (`Records.SumaConSignoSort`). Names compare by character code, not by the database collation.
- Ledger.Libro.GetMonthlyCashFlow: `anio` and `mes` are integers here, where the API returns them as strings.
- Browser code beyond the computations above is not modelled: DOM updates, `fetch`, events, the Blob download and the Chart.js rendering.
- Csv.ExportTableToCsv: cell texts come as strings (`innerText` is not modelled). The reader `ParseCsv` exists only in this model, to state the round-trip property; the application has no reader.
