/** The ledger engine behind the JSON API: the three write actions, each one
    all or nothing, and the read actions over the four tables.

    Every write is given the timestamp it stamps on its rows (`fecha`) and
    the statement, if any, at which the database raises an error (`falla`);
    the pure functions `Efecto*` state what each write does to the whole
    state, and the methods of `Libro` do it statement by statement, undoing
    everything on the error paths. */
module Ledger {
  import opened Tables
  import opened Calendar
  import opened Records
  import Iva

  /** The four tables. */
  datatype Estado = Estado(
    productos: map<int, Producto>,
    movimientos: seq<Movimiento>,
    ventas: seq<Venta>,
    compras: seq<Compra>)

  /** The statements a write runs; a failure names the one that raised. */
  datatype Paso = InsertarMovimiento | LeerStock | InsertarVenta | InsertarCompra | InsertarCaja | ActualizarStock

  /** What a write reports back (`success` and the kind of `message`). */
  datatype Resultado = Exito | StockInsuficiente | ErrorBaseDatos(paso: Paso)

  /** The fields of `add_movimiento_caja`, `add_venta` and `add_compra`.
      For a purchase, `None` is a field that is absent or falsy. */
  datatype PedidoMovimiento = PedidoMovimiento(
    tipo: string,
    concepto: string,
    montoTotal: real,
    medioPago: string,
    afectaImpuestos: int,
    docTributarioAsociado: Option<string>)

  datatype PedidoVenta = PedidoVenta(
    productoId: int,
    cantidad: int,
    precioUnitarioConIva: real,
    montoTotalConIva: real,
    metodoPago: string,
    nDocumento: string)

  datatype PedidoCompra = PedidoCompra(
    productoId: Option<int>,
    cantidad: Option<int>,
    concepto: string,
    montoTotalConIva: real,
    nDocumento: string)

  /** One month of the dashboard's cash-flow chart. */
  datatype FlujoMes = FlujoMes(anio: int, mes: int, ingresos: real, egresos: real)

  // ---------------------------------------------------------------------
  // The rows each write stores

  function ConceptoVenta(nDocumento: string): string {
    "Venta de productos (Doc: " + nDocumento + ")"
  }

  function ConceptoCompra(nDocumento: string, concepto: string): string {
    "Compra/Gasto (Doc: " + nDocumento + "): " + concepto
  }

  /** The sale row: the total and the unit price are stored net, with the
      total's VAT beside it. */
  function VentaRegistrada(fecha: int, p: PedidoVenta): (v: Venta)
    ensures VentaCuadrada(v)
    ensures v.montoTotalConIva == p.montoTotalConIva
    ensures v.precioUnitarioNeto * Iva.IVA_FACTOR == p.precioUnitarioConIva
    ensures v.fecha == fecha && v.productoId == p.productoId && v.cantidad == p.cantidad
    ensures v.metodoPago == p.metodoPago && v.nDocumento == p.nDocumento
  {
    var d := Iva.Desglosar(p.montoTotalConIva);
    Venta(fecha, p.productoId, p.cantidad, Iva.Neto(p.precioUnitarioConIva), d.neto, d.iva,
          p.montoTotalConIva, p.metodoPago, p.nDocumento)
  }

  /** The purchase row, with the total's VAT breakdown. */
  function CompraRegistrada(fecha: int, p: PedidoCompra): (c: Compra)
    ensures CompraCuadrada(c)
    ensures c.montoTotalConIva == p.montoTotalConIva
    ensures c.fecha == fecha && c.productoId == p.productoId && c.cantidad == p.cantidad
    ensures c.concepto == p.concepto && c.nDocumento == p.nDocumento
  {
    var d := Iva.Desglosar(p.montoTotalConIva);
    Compra(fecha, p.productoId, p.cantidad, p.concepto, d.neto, d.iva, p.montoTotalConIva, p.nDocumento)
  }

  /** The cash inflow a sale writes: its whole tax-inclusive total, flagged
      as tax-relevant. */
  function IngresoDe(v: Venta): (m: Movimiento)
    ensures m.fecha == v.fecha && m.tipo == "ingreso" && m.montoTotal == v.montoTotalConIva
    ensures m.concepto == ConceptoVenta(v.nDocumento) && m.medioPago == v.metodoPago
    ensures m.afectaImpuestos == 1 && m.docTributarioAsociado == Some(v.nDocumento)
    ensures ConSigno(m) == v.montoTotalConIva
  {
    Movimiento(v.fecha, "ingreso", ConceptoVenta(v.nDocumento), v.montoTotalConIva, v.metodoPago, 1, Some(v.nDocumento))
  }

  /** The cash outflow a purchase writes, always by bank transfer. */
  function EgresoDe(c: Compra): (m: Movimiento)
    ensures m.fecha == c.fecha && m.tipo == "egreso" && m.montoTotal == c.montoTotalConIva
    ensures m.concepto == ConceptoCompra(c.nDocumento, c.concepto) && m.medioPago == "Transferencia Bancaria"
    ensures m.afectaImpuestos == 1 && m.docTributarioAsociado == Some(c.nDocumento)
    ensures ConSigno(m) == -c.montoTotalConIva
  {
    Movimiento(c.fecha, "egreso", ConceptoCompra(c.nDocumento, c.concepto), c.montoTotalConIva,
               "Transferencia Bancaria", 1, Some(c.nDocumento))
  }

  /** The row `add_movimiento_caja` stores: every field as the caller sent
      it, stamped with the time of the call. */
  function MovimientoRegistrado(fecha: int, p: PedidoMovimiento): (m: Movimiento)
    ensures m.fecha == fecha && m.tipo == p.tipo && m.concepto == p.concepto
    ensures m.montoTotal == p.montoTotal && m.medioPago == p.medioPago
    ensures m.afectaImpuestos == p.afectaImpuestos && m.docTributarioAsociado == p.docTributarioAsociado
  {
    Movimiento(fecha, p.tipo, p.concepto, p.montoTotal, p.medioPago, p.afectaImpuestos, p.docTributarioAsociado)
  }

  function NombreDe(productos: map<int, Producto>, id: int): Option<string> {
    if id in productos then Some(productos[id].nombre) else None
  }

  /** The rows of `get_rcv_ventas` / `get_rcv_compras` before filtering:
      each row joined with its product's name. */
  function UnirVentas(ventas: seq<Venta>, productos: map<int, Producto>): (f: seq<FilaVenta>)
    ensures |f| == |ventas|
  {
    seq(|ventas|, k requires 0 <= k < |ventas| => FilaVenta(ventas[k], NombreDe(productos, ventas[k].productoId)))
  }

  function UnirCompras(compras: seq<Compra>, productos: map<int, Producto>): (f: seq<FilaCompra>)
    ensures |f| == |compras|
  {
    seq(|compras|, k requires 0 <= k < |compras| =>
      FilaCompra(compras[k], if compras[k].productoId.Some? then NombreDe(productos, compras[k].productoId.value) else None))
  }

  /** A product as `get_products` lists it: its net cost and price shown
      VAT-inclusive. */
  function Listar(id: int, p: Producto): (l: ProductoListado)
    ensures l.id == id && l.nombre == p.nombre && l.stock == p.stock
    ensures Iva.Neto(l.costoUnitarioConIva) == p.costoUnitarioNeto
    ensures Iva.Neto(l.precioVentaConIva) == p.precioVentaNeto
  {
    ProductoListado(id, p.nombre, Iva.ConIva(p.costoUnitarioNeto), Iva.ConIva(p.precioVentaNeto), p.stock)
  }

  // ---------------------------------------------------------------------
  // What each write does to the whole state

  /** `addMovimientoCaja`: one row, exactly as given (neither the sign of
      the amount nor the `tipo` is checked), or nothing. */
  function EfectoMovimiento(s: Estado, fecha: int, p: PedidoMovimiento, falla: Option<Paso>): (r: (Resultado, Estado))
    ensures r.0 == Exito <==> falla != Some(InsertarMovimiento)
    ensures r.0 != Exito ==> r.1 == s
    ensures r.0 == Exito ==>
      r.1.productos == s.productos && r.1.ventas == s.ventas && r.1.compras == s.compras &&
      r.1.movimientos == s.movimientos + [MovimientoRegistrado(fecha, p)]
  {
    if falla == Some(InsertarMovimiento) then (ErrorBaseDatos(InsertarMovimiento), s)
    else (Exito, s.(movimientos := s.movimientos + [MovimientoRegistrado(fecha, p)]))
  }

  /** The stock `SELECT ... FOR UPDATE` reads: NULL when no product has
      the id. */
  function StockDe(productos: map<int, Producto>, id: int): (st: Option<int>)
    ensures st.Some? <==> id in productos
    ensures id in productos ==> st.value == productos[id].stock
  {
    if id in productos then Some(productos[id].stock) else None
  }

  /** `$cantidad > $current_stock`. Against NULL both sides compare as
      booleans, so for a missing product any non-zero quantity counts as
      above the stock and a zero quantity does not. */
  function SuperaStock(cantidad: int, stock: Option<int>): (supera: bool)
    ensures stock.Some? ==> (supera <==> stock.value - cantidad < 0)
    ensures stock.None? ==> (supera <==> cantidad != 0)
  {
    match stock
    case Some(st) => cantidad > st
    case None => cantidad != 0
  }

  /** `addVenta`: refused when the quantity is above the stock read, and
      undone when any statement fails; otherwise one sale row, its cash
      inflow, and the stock lowered by the quantity (for a product that
      exists: the UPDATE of a missing id changes no row). */
  function EfectoVenta(s: Estado, fecha: int, p: PedidoVenta, falla: Option<Paso>): (r: (Resultado, Estado))
    ensures r.0 == Exito <==>
      falla != Some(LeerStock) && falla != Some(InsertarVenta) && falla != Some(InsertarCaja) &&
      falla != Some(ActualizarStock) && !SuperaStock(p.cantidad, StockDe(s.productos, p.productoId))
    ensures r.0 == StockInsuficiente <==>
      falla != Some(LeerStock) && SuperaStock(p.cantidad, StockDe(s.productos, p.productoId))
    ensures r.0 != Exito ==> r.1 == s
    ensures r.0 == Exito ==>
      var id := p.productoId;
      r.1.productos.Keys == s.productos.Keys &&
      (id in s.productos ==>
         r.1.productos[id] == s.productos[id].(stock := s.productos[id].stock - p.cantidad) &&
         r.1.productos[id].stock >= 0) &&
      (forall j :: j in s.productos && j != id ==> r.1.productos[j] == s.productos[j]) &&
      r.1.ventas == s.ventas + [VentaRegistrada(fecha, p)] &&
      r.1.movimientos == s.movimientos + [IngresoDe(VentaRegistrada(fecha, p))] &&
      r.1.compras == s.compras
  {
    if falla == Some(LeerStock) then (ErrorBaseDatos(LeerStock), s)
    else if SuperaStock(p.cantidad, StockDe(s.productos, p.productoId)) then (StockInsuficiente, s)
    else if falla == Some(InsertarVenta) || falla == Some(InsertarCaja) || falla == Some(ActualizarStock) then
      (ErrorBaseDatos(falla.value), s)
    else
      var v := VentaRegistrada(fecha, p);
      var id := p.productoId;
      var productos :=
        if id in s.productos then s.productos[id := s.productos[id].(stock := s.productos[id].stock - p.cantidad)]
        else s.productos;
      (Exito, Estado(productos, s.movimientos + [IngresoDe(v)], s.ventas + [v], s.compras))
  }

  /** `addCompra`: one purchase row and its cash outflow; the product's
      stock rises by the quantity only when both are given and non-zero (and
      the product exists, since an UPDATE of no row changes nothing). Undone
      when any statement fails. */
  function EfectoCompra(s: Estado, fecha: int, p: PedidoCompra, falla: Option<Paso>): (r: (Resultado, Estado))
    ensures r.0 == Exito <==>
      falla != Some(InsertarCompra) && falla != Some(InsertarCaja) &&
      !(Acredita(CompraRegistrada(fecha, p)) && falla == Some(ActualizarStock))
    ensures r.0 != Exito ==> r.1 == s
    ensures r.0 == Exito ==>
      r.1.compras == s.compras + [CompraRegistrada(fecha, p)] &&
      r.1.movimientos == s.movimientos + [EgresoDe(CompraRegistrada(fecha, p))] &&
      r.1.ventas == s.ventas &&
      r.1.productos.Keys == s.productos.Keys &&
      (forall j :: j in s.productos ==>
        r.1.productos[j] == if Acredita(CompraRegistrada(fecha, p)) && p.productoId == Some(j)
                            then s.productos[j].(stock := s.productos[j].stock + p.cantidad.value)
                            else s.productos[j])
  {
    var c := CompraRegistrada(fecha, p);
    if falla == Some(InsertarCompra) || falla == Some(InsertarCaja) || (Acredita(c) && falla == Some(ActualizarStock)) then
      (ErrorBaseDatos(falla.value), s)
    else
      var productos :=
        if Acredita(c) && c.productoId.value in s.productos
        then s.productos[c.productoId.value := s.productos[c.productoId.value].(stock := s.productos[c.productoId.value].stock + c.cantidad.value)]
        else s.productos;
      (Exito, Estado(productos, s.movimientos + [EgresoDe(c)], s.ventas, s.compras + [c]))
  }

  /** Sales run one after another with no database error: the final state
      and each sale's result. */
  function VentasSucesivas(s: Estado, fecha: int, pedidos: seq<PedidoVenta>): (Estado, seq<Resultado>)
  {
    if pedidos == [] then (s, [])
    else
      var (s1, rs) := VentasSucesivas(s, fecha, pedidos[..|pedidos| - 1]);
      var (r, s2) := EfectoVenta(s1, fecha, pedidos[|pedidos| - 1], None);
      (s2, rs + [r])
  }

  ghost predicate StockNoNegativo(s: Estado) {
    forall id :: id in s.productos ==> s.productos[id].stock >= 0
  }

  /** Each of a run of sales is decided on the stock the earlier ones left:
      it goes through exactly when its quantity fits that stock. */
  lemma {:induction false} VentasSucesivasDecididas(s: Estado, fecha: int, pedidos: seq<PedidoVenta>)
    ensures |VentasSucesivas(s, fecha, pedidos).1| == |pedidos|
    ensures forall k :: 0 <= k < |pedidos| ==>
      var antes := VentasSucesivas(s, fecha, pedidos[..k]).0;
      (VentasSucesivas(s, fecha, pedidos).1[k] == Exito <==>
         !SuperaStock(pedidos[k].cantidad, StockDe(antes.productos, pedidos[k].productoId)))
  {
    if pedidos != [] {
      var n := |pedidos| - 1;
      var previos := pedidos[..n];
      VentasSucesivasDecididas(s, fecha, previos);
      forall k | 0 <= k < |pedidos|
        ensures var antes := VentasSucesivas(s, fecha, pedidos[..k]).0;
          (VentasSucesivas(s, fecha, pedidos).1[k] == Exito <==>
             !SuperaStock(pedidos[k].cantidad, StockDe(antes.productos, pedidos[k].productoId)))
      {
        if k < n {
          assert previos[..k] == pedidos[..k];
          assert previos[k] == pedidos[k];
        } else {
          assert pedidos[..k] == previos;
        }
      }
    }
  }

  /** However many sales are attempted, a stock that starts at zero or
      above never goes below zero. */
  lemma {:induction false} VentasNoAgotanBajoCero(s: Estado, fecha: int, pedidos: seq<PedidoVenta>)
    requires StockNoNegativo(s)
    ensures StockNoNegativo(VentasSucesivas(s, fecha, pedidos).0)
  {
    if pedidos != [] {
      VentasNoAgotanBajoCero(s, fecha, pedidos[..|pedidos| - 1]);
    }
  }

  /** A product with 5 units and a sale of 10: refused, nothing written. A
      sale of 2 units at 1190 each: net 2000, VAT 380, an inflow of 2380.
      For an id with no product, 3 units are refused as above the stock while
      0 units are recorded as a sale that moves no stock. */
  lemma EjemplosVenta(s: Estado, fecha: int)
    requires 7 in s.productos && s.productos[7].stock == 5 && 99 !in s.productos
    ensures EfectoVenta(s, fecha, PedidoVenta(99, 3, 10.0, 30.0, "Efectivo", "B-3"), None).0 == StockInsuficiente
    ensures var (r, s') := EfectoVenta(s, fecha, PedidoVenta(99, 0, 10.0, 0.0, "Efectivo", "B-4"), None);
      r == Exito && s'.productos == s.productos && |s'.ventas| == |s.ventas| + 1
    ensures var p := PedidoVenta(7, 10, 1190.0, 11900.0, "Efectivo", "B-1");
      EfectoVenta(s, fecha, p, None) == (StockInsuficiente, s)
    ensures var p := PedidoVenta(7, 2, 1190.0, 2380.0, "Efectivo", "B-2");
      var (r, s') := EfectoVenta(s, fecha, p, None);
      r == Exito && s'.productos[7].stock == 3 &&
      s'.ventas[|s.ventas|].montoNetoTotal == 2000.0 && s'.ventas[|s.ventas|].montoIva == 380.0 &&
      s'.movimientos[|s.movimientos|].montoTotal == 2380.0
  {
    Iva.Ejemplos();
  }

  // ---------------------------------------------------------------------
  // The ledger's invariant, over values

  /** Each product's stock is its opening stock `si` plus what purchases
      added minus what sales took. */
  ghost predicate StockCuadra(e: Estado, si: map<int, int>) {
    e.productos.Keys == si.Keys &&
    forall id :: id in e.productos ==>
      e.productos[id].stock == si[id] + Comprado(e.compras, id) - Vendido(e.ventas, id)
  }

  /** Every stored sale and purchase satisfies the VAT identity. */
  ghost predicate FilasCuadradas(e: Estado) {
    (forall k :: 0 <= k < |e.ventas| ==> VentaCuadrada(e.ventas[k])) &&
    (forall k :: 0 <= k < |e.compras| ==> CompraCuadrada(e.compras[k]))
  }

  /** Sale `k`'s inflow is movement `cv[k]` and purchase `k`'s outflow is
      movement `cc[k]`, in the same order as the sales and purchases. */
  ghost predicate CajaEnlazada(e: Estado, cv: seq<nat>, cc: seq<nat>) {
    |cv| == |e.ventas| && |cc| == |e.compras| &&
    (forall k :: 0 <= k < |e.ventas| ==> cv[k] < |e.movimientos| && e.movimientos[cv[k]] == IngresoDe(e.ventas[k])) &&
    (forall k, k' :: 0 <= k < k' < |e.ventas| ==> cv[k] < cv[k']) &&
    (forall k :: 0 <= k < |e.compras| ==> cc[k] < |e.movimientos| && e.movimientos[cc[k]] == EgresoDe(e.compras[k])) &&
    (forall k, k' :: 0 <= k < k' < |e.compras| ==> cc[k] < cc[k'])
  }

  ghost predicate Consistente(e: Estado, si: map<int, int>, cv: seq<nat>, cc: seq<nat>) {
    StockCuadra(e, si) && FilasCuadradas(e) && CajaEnlazada(e, cv, cc)
  }

  /** A plain cash movement, written or not, keeps the invariant. */
  lemma ConsistenteMovimiento(e: Estado, si: map<int, int>, cv: seq<nat>, cc: seq<nat>,
                              fecha: int, p: PedidoMovimiento, falla: Option<Paso>)
    requires Consistente(e, si, cv, cc)
    ensures Consistente(EfectoMovimiento(e, fecha, p, falla).1, si, cv, cc)
  {
  }

  /** A sale that goes through keeps the invariant, its inflow being the
      movement it appends. */
  lemma ConsistenteVenta(e: Estado, si: map<int, int>, cv: seq<nat>, cc: seq<nat>,
                         fecha: int, p: PedidoVenta, falla: Option<Paso>)
    requires Consistente(e, si, cv, cc)
    requires EfectoVenta(e, fecha, p, falla).0 == Exito
    ensures Consistente(EfectoVenta(e, fecha, p, falla).1, si, cv + [|e.movimientos|], cc)
  {
    var e' := EfectoVenta(e, fecha, p, falla).1;
    var v := VentaRegistrada(fecha, p);
    forall id | id in e'.productos
      ensures e'.productos[id].stock == si[id] + Comprado(e'.compras, id) - Vendido(e'.ventas, id)
    {
      VendidoSnoc(e.ventas, v, id);
    }
    assert StockCuadra(e', si);
    var cv' := cv + [|e.movimientos|];
    forall k | 0 <= k < |e'.ventas|
      ensures cv'[k] < |e'.movimientos| && e'.movimientos[cv'[k]] == IngresoDe(e'.ventas[k])
    {
    }
    assert CajaEnlazada(e', cv', cc);
  }

  /** A purchase that goes through keeps the invariant, its outflow being
      the movement it appends. */
  lemma ConsistenteCompra(e: Estado, si: map<int, int>, cv: seq<nat>, cc: seq<nat>,
                          fecha: int, p: PedidoCompra, falla: Option<Paso>)
    requires Consistente(e, si, cv, cc)
    requires EfectoCompra(e, fecha, p, falla).0 == Exito
    ensures Consistente(EfectoCompra(e, fecha, p, falla).1, si, cv, cc + [|e.movimientos|])
  {
    var e' := EfectoCompra(e, fecha, p, falla).1;
    var c := CompraRegistrada(fecha, p);
    forall id | id in e'.productos
      ensures e'.productos[id].stock == si[id] + Comprado(e'.compras, id) - Vendido(e'.ventas, id)
    {
      CompradoSnoc(e.compras, c, id);
    }
    assert StockCuadra(e', si);
    var cc' := cc + [|e.movimientos|];
    forall k | 0 <= k < |e'.compras|
      ensures cc'[k] < |e'.movimientos| && e'.movimientos[cc'[k]] == EgresoDe(e'.compras[k])
    {
    }
    assert CajaEnlazada(e', cv, cc');
  }

  /** The sales of [desde, hasta), the query's half-open window, are the
      sales of the closed window [desde, fin] when `hasta` is the second
      after `fin`; when every row satisfies the VAT identity, their net sum
      with VAT added is their tax-inclusive sum. */
  lemma VentasDelMes(ventas: seq<Venta>, desde: int, hasta: int, fin: int)
    requires fin + 1 == hasta
    ensures NetoVentasDesdeHasta(ventas, desde, hasta) == NetoVentasEntre(ventas, desde, fin)
    ensures (forall k :: 0 <= k < |ventas| ==> VentaCuadrada(ventas[k])) ==>
      NetoVentasEntre(ventas, desde, fin) * Iva.IVA_FACTOR == BrutoVentasDesdeHasta(ventas, desde, hasta)
  {
    NetoVentasEntreSemiabierto(ventas, desde, fin);
    if forall k :: 0 <= k < |ventas| ==> VentaCuadrada(ventas[k]) {
      NetoVentasCuadra(ventas, desde, hasta);
    }
  }

  /** The two columns of one window of the cash-flow chart: each is 0 when
      no movement of the window matches its `tipo`, and their difference is
      the window's net cash change when every movement matches one. */
  lemma FlujoPorTipo(s: seq<Movimiento>, lo: int, hi: int)
    ensures NingunoDeTipo(s, "ingreso", lo, hi) ==> SumaTipoEntre(s, "ingreso", lo, hi) == 0.0
    ensures NingunoDeTipo(s, "egreso", lo, hi) ==> SumaTipoEntre(s, "egreso", lo, hi) == 0.0
    ensures SoloIngresosYEgresos(s, lo, hi) ==>
            SumaTipoEntre(s, "ingreso", lo, hi) - SumaTipoEntre(s, "egreso", lo, hi) == SumaConSignoEntre(s, lo, hi)
  {
    if NingunoDeTipo(s, "ingreso", lo, hi) {
      SumaTipoEntreCero(s, "ingreso", lo, hi);
    }
    if NingunoDeTipo(s, "egreso", lo, hi) {
      SumaTipoEntreCero(s, "egreso", lo, hi);
    }
    if SoloIngresosYEgresos(s, lo, hi) {
      FlujoEsSaldo(s, lo, hi);
    }
  }

  /** Six entries labelled with the months from five months back to `hoy`
      run one month apart and end at `hoy`. */
  lemma MesesSeguidos(hoy: YearMonth, data: seq<FlujoMes>)
    requires ValidMonth(hoy) && |data| == 6
    requires forall k :: 0 <= k < 6 ==> YearMonth(data[k].anio, data[k].mes) == MonthsBack(hoy, 5 - k)
    ensures data[5].anio == hoy.year && data[5].mes == hoy.month
    ensures forall k :: 0 <= k < 5 ==>
      YearMonth(data[k + 1].anio, data[k + 1].mes) == NextMonth(YearMonth(data[k].anio, data[k].mes))
  {
    MonthsBackStep(hoy, 0);
    forall k | 0 <= k < 5
      ensures YearMonth(data[k + 1].anio, data[k + 1].mes) == NextMonth(YearMonth(data[k].anio, data[k].mes))
    {
      MonthsBackStep(hoy, 4 - k);
    }
  }

  // ---------------------------------------------------------------------
  // The engine

  class Libro {
    var productos: map<int, Producto>
    var movimientos: seq<Movimiento>
    var ventas: seq<Venta>
    var compras: seq<Compra>

    /** Each product's stock when the ledger was opened. */
    ghost var stockInicial: map<int, int>
    /** The position in `movimientos` of each sale's inflow and of each
        purchase's outflow. */
    ghost var cajaDeVenta: seq<nat>
    ghost var cajaDeCompra: seq<nat>

    function Actual(): Estado
      reads this
    {
      Estado(productos, movimientos, ventas, compras)
    }

    /** The ledger's invariant: stock reconciles with the sales and
        purchases, every row satisfies the VAT identity, and each sale and
        purchase has its own cash movement. */
    ghost predicate Valid()
      reads this
    {
      Consistente(Actual(), stockInicial, cajaDeVenta, cajaDeCompra)
    }

    /** A ledger over the given products, with no movements, sales or
        purchases yet. */
    constructor (catalogo: map<int, Producto>)
      ensures Valid()
      ensures Actual() == Estado(catalogo, [], [], [])
    {
      productos, movimientos, ventas, compras := catalogo, [], [], [];
      stockInicial := map id | id in catalogo :: catalogo[id].stock;
      cajaDeVenta, cajaDeCompra := [], [];
    }

    /** `rollback`: puts every table back as it was at `begin_transaction`. */
    method Rollback(inicio: Estado, ghost cv: seq<nat>, ghost cc: seq<nat>)
      modifies this
      ensures Actual() == inicio && cajaDeVenta == cv && cajaDeCompra == cc
      ensures stockInicial == old(stockInicial)
    {
      productos, movimientos, ventas, compras := inicio.productos, inicio.movimientos, inicio.ventas, inicio.compras;
      cajaDeVenta, cajaDeCompra := cv, cc;
    }

    /** `addMovimientoCaja`: a single INSERT, without a transaction. */
    method AddMovimientoCaja(fecha: int, p: PedidoMovimiento, falla: Option<Paso>) returns (r: Resultado)
      requires Valid()
      modifies this
      ensures Valid()
      ensures (r, Actual()) == EfectoMovimiento(old(Actual()), fecha, p, falla)
    {
      ConsistenteMovimiento(Actual(), stockInicial, cajaDeVenta, cajaDeCompra, fecha, p, falla);
      if falla == Some(InsertarMovimiento) {
        return ErrorBaseDatos(InsertarMovimiento);
      }
      movimientos := movimientos + [Movimiento(fecha, p.tipo, p.concepto, p.montoTotal, p.medioPago,
                                               p.afectaImpuestos, p.docTributarioAsociado)];
      r := Exito;
    }

    /** The statements inside `addVenta`'s `try`: split the total, lock and
        check the product's stock, insert the sale, insert its cash inflow,
        lower the stock. Stops at the first refusal or failed statement,
        leaving whatever it already wrote for the caller to roll back. */
    method PasosVenta(fecha: int, p: PedidoVenta, falla: Option<Paso>) returns (r: Resultado)
      modifies this
      ensures r == EfectoVenta(old(Actual()), fecha, p, falla).0
      ensures r == Exito ==> Actual() == EfectoVenta(old(Actual()), fecha, p, falla).1
      ensures stockInicial == old(stockInicial) && cajaDeVenta == old(cajaDeVenta) && cajaDeCompra == old(cajaDeCompra)
    {
      var desglose := Iva.Desglosar(p.montoTotalConIva);
      var precioUnitarioNeto := Iva.Neto(p.precioUnitarioConIva);

      // 1. Read the stock under a row lock.
      if falla == Some(LeerStock) {
        return ErrorBaseDatos(LeerStock);
      }
      if SuperaStock(p.cantidad, StockDe(productos, p.productoId)) {
        return StockInsuficiente;
      }
      // 2. The sale row, with the split amounts.
      if falla == Some(InsertarVenta) {
        return ErrorBaseDatos(InsertarVenta);
      }
      ventas := ventas + [Venta(fecha, p.productoId, p.cantidad, precioUnitarioNeto, desglose.neto, desglose.iva,
                                p.montoTotalConIva, p.metodoPago, p.nDocumento)];
      // 3. The cash inflow for the whole tax-inclusive total.
      if falla == Some(InsertarCaja) {
        return ErrorBaseDatos(InsertarCaja);
      }
      movimientos := movimientos + [Movimiento(fecha, "ingreso", ConceptoVenta(p.nDocumento), p.montoTotalConIva,
                                               p.metodoPago, 1, Some(p.nDocumento))];
      // 4. The stock (an UPDATE of a missing id changes no row).
      if falla == Some(ActualizarStock) {
        return ErrorBaseDatos(ActualizarStock);
      }
      if p.productoId in productos {
        var prod := productos[p.productoId];
        productos := productos[p.productoId := prod.(stock := prod.stock - p.cantidad)];
      }
      r := Exito;
    }

    /** `addVenta`: the statements above inside a transaction, committed
        when they all go through and rolled back otherwise. */
    method AddVenta(fecha: int, p: PedidoVenta, falla: Option<Paso>) returns (r: Resultado)
      requires Valid()
      modifies this
      ensures Valid()
      ensures (r, Actual()) == EfectoVenta(old(Actual()), fecha, p, falla)
    {
      var inicio := Actual();
      ghost var cv, cc := cajaDeVenta, cajaDeCompra;
      r := PasosVenta(fecha, p, falla);
      if r == Exito {
        // commit
        ConsistenteVenta(inicio, stockInicial, cv, cc, fecha, p, falla);
        cajaDeVenta := cv + [|inicio.movimientos|];
      } else {
        Rollback(inicio, cv, cc);
      }
    }

    /** The statements inside `addCompra`'s `try`: split the total, insert
        the purchase, insert its cash outflow, raise the stock if both a
        product and a quantity were given. Stops at the first failed
        statement. */
    method PasosCompra(fecha: int, p: PedidoCompra, falla: Option<Paso>) returns (r: Resultado)
      modifies this
      ensures r == EfectoCompra(old(Actual()), fecha, p, falla).0
      ensures r == Exito ==> Actual() == EfectoCompra(old(Actual()), fecha, p, falla).1
      ensures stockInicial == old(stockInicial) && cajaDeVenta == old(cajaDeVenta) && cajaDeCompra == old(cajaDeCompra)
    {
      var desglose := Iva.Desglosar(p.montoTotalConIva);
      var compra := Compra(fecha, p.productoId, p.cantidad, p.concepto, desglose.neto, desglose.iva,
                           p.montoTotalConIva, p.nDocumento);

      // 1. The purchase row, with the split amounts.
      if falla == Some(InsertarCompra) {
        return ErrorBaseDatos(InsertarCompra);
      }
      compras := compras + [compra];
      // 2. The cash outflow.
      if falla == Some(InsertarCaja) {
        return ErrorBaseDatos(InsertarCaja);
      }
      movimientos := movimientos + [Movimiento(fecha, "egreso", ConceptoCompra(p.nDocumento, p.concepto),
                                               p.montoTotalConIva, "Transferencia Bancaria", 1, Some(p.nDocumento))];
      // 3. Stock, for a purchase of stock.
      if Acredita(compra) {
        if falla == Some(ActualizarStock) {
          return ErrorBaseDatos(ActualizarStock);
        }
        var id := compra.productoId.value;
        if id in productos {
          productos := productos[id := productos[id].(stock := productos[id].stock + compra.cantidad.value)];
        }
      }
      r := Exito;
    }

    /** `addCompra`: the statements above inside a transaction, committed
        when they all go through and rolled back otherwise. */
    method AddCompra(fecha: int, p: PedidoCompra, falla: Option<Paso>) returns (r: Resultado)
      requires Valid()
      modifies this
      ensures Valid()
      ensures (r, Actual()) == EfectoCompra(old(Actual()), fecha, p, falla)
    {
      var inicio := Actual();
      ghost var cv, cc := cajaDeVenta, cajaDeCompra;
      r := PasosCompra(fecha, p, falla);
      if r == Exito {
        // commit
        ConsistenteCompra(inicio, stockInicial, cv, cc, fecha, p, falla);
        cajaDeCompra := cc + [|inicio.movimientos|];
      } else {
        Rollback(inicio, cv, cc);
      }
    }

    // -------------------------------------------------------------------
    // Reads

    /** `getProducts`: every product once, its prices shown VAT-inclusive,
        ordered by name. */
    method GetProducts() returns (lista: seq<ProductoListado>)
      ensures SortedBy(lista, ProductoAntes)
      ensures |lista| == |productos|
      ensures forall k :: 0 <= k < |lista| ==>
        lista[k].id in productos && lista[k] == Listar(lista[k].id, productos[lista[k].id])
      ensures forall id :: id in productos ==> Listar(id, productos[id]) in lista
    {
      OrdersArePreorders();
      lista := [];
      var pendientes := productos.Keys;
      while |pendientes| > 0
        invariant pendientes <= productos.Keys
        invariant SortedBy(lista, ProductoAntes)
        invariant |lista| + |pendientes| == |productos|
        invariant forall k :: 0 <= k < |lista| ==>
          lista[k].id in productos && lista[k].id !in pendientes && lista[k] == Listar(lista[k].id, productos[lista[k].id])
        invariant forall id :: id in productos && id !in pendientes ==> Listar(id, productos[id]) in lista
        decreases |pendientes|
      {
        assert exists x :: x in pendientes by {
          if forall x :: x !in pendientes {
            assert false;
          }
        }
        var id :| id in pendientes;
        var fila := Listar(id, productos[id]);
        InsertBySorted(lista, fila, ProductoAntes);
        InsertByMembers(lista, fila, ProductoAntes);
        var nueva := InsertBy(lista, fila, ProductoAntes);
        forall k | 0 <= k < |nueva|
          ensures nueva[k].id in productos && nueva[k].id != id ==> nueva[k].id !in pendientes - {id}
          ensures nueva[k].id in productos && nueva[k] == Listar(nueva[k].id, productos[nueva[k].id])
        {
          assert nueva[k] in lista || nueva[k] == fila;
        }
        lista := nueva;
        pendientes := pendientes - {id};
      }
    }

    /** `getLibroCaja`: the cash movements of the range, by date. */
    method GetLibroCaja(rango: Rango) returns (filas: seq<Movimiento>)
      ensures filas == SortBy(Ventana(movimientos, MovFecha, rango), MovAntes)
      ensures SortedBy(filas, MovAntes)
      ensures multiset(filas) == multiset(Ventana(movimientos, MovFecha, rango))
      ensures forall m :: m in filas <==> m in movimientos && EnRango(m.fecha, rango)
    {
      OrdersArePreorders();
      filas := SelectOrderBy(movimientos, MovFecha, MovAntes, rango);
    }

    /** `getRcvVentas`: the sales of the range, each with its product's
        name, by date. */
    method GetRcvVentas(rango: Rango) returns (filas: seq<FilaVenta>)
      ensures filas == SortBy(Ventana(UnirVentas(ventas, productos), FilaVentaFecha, rango), FilaVentaAntes)
      ensures SortedBy(filas, FilaVentaAntes)
      ensures multiset(filas) == multiset(Ventana(UnirVentas(ventas, productos), FilaVentaFecha, rango))
      ensures forall f :: f in filas <==>
        f.venta in ventas && EnRango(f.venta.fecha, rango) && f.nombreProducto == NombreDe(productos, f.venta.productoId)
    {
      OrdersArePreorders();
      var unidas := UnirVentas(ventas, productos);
      filas := SelectOrderBy(unidas, FilaVentaFecha, FilaVentaAntes, rango);
      forall f ensures f in unidas <==> f.venta in ventas && f.nombreProducto == NombreDe(productos, f.venta.productoId) {
        if f.venta in ventas {
          var k :| 0 <= k < |ventas| && ventas[k] == f.venta;
          assert unidas[k] == FilaVenta(f.venta, NombreDe(productos, f.venta.productoId));
        }
      }
    }

    /** `getRcvCompras`: the purchases of the range, each with its
        product's name when it has one, by date. */
    method GetRcvCompras(rango: Rango) returns (filas: seq<FilaCompra>)
      ensures filas == SortBy(Ventana(UnirCompras(compras, productos), FilaCompraFecha, rango), FilaCompraAntes)
      ensures SortedBy(filas, FilaCompraAntes)
      ensures multiset(filas) == multiset(Ventana(UnirCompras(compras, productos), FilaCompraFecha, rango))
      ensures forall f :: f in filas <==>
        f.compra in compras && EnRango(f.compra.fecha, rango) &&
        f.nombreProducto == (if f.compra.productoId.Some? then NombreDe(productos, f.compra.productoId.value) else None)
    {
      OrdersArePreorders();
      var unidas := UnirCompras(compras, productos);
      filas := SelectOrderBy(unidas, FilaCompraFecha, FilaCompraAntes, rango);
      forall f ensures f in unidas <==>
        f.compra in compras &&
        f.nombreProducto == (if f.compra.productoId.Some? then NombreDe(productos, f.compra.productoId.value) else None)
      {
        if f.compra in compras {
          var k :| 0 <= k < |compras| && compras[k] == f.compra;
          assert unidas[k].compra == f.compra;
        }
      }
    }

    /** `getSaldoCaja`: the signed sum of all movements (0 with none). At
        every day it splits into the balance before the day and the
        movements from the day on. */
    function GetSaldoCaja(): (saldo: real)
      reads this
      ensures movimientos == [] ==> saldo == 0.0
      ensures forall d :: SumaConSignoAntes(movimientos, DayStart(d)) +
                           SumaConSigno(Ventana(movimientos, MovFecha, Rango(Some(d), None))) == saldo
    {
      assert forall d :: SumaConSignoAntes(movimientos, DayStart(d)) +
                         SumaConSigno(Ventana(movimientos, MovFecha, Rango(Some(d), None))) == SumaConSigno(movimientos) by {
        forall d
          ensures SumaConSignoAntes(movimientos, DayStart(d)) +
                  SumaConSigno(Ventana(movimientos, MovFecha, Rango(Some(d), None))) == SumaConSigno(movimientos)
        {
          SaldoPartido(movimientos, d);
        }
      }
      SumaConSigno(movimientos)
    }

    /** `getLibroCajaSaldoInicial`: the balance of the movements before
        `dateBefore 00:00:00`; 0 when no date is given. With the movements
        from that day on it makes up the current balance. */
    function GetLibroCajaSaldoInicial(dateBefore: Option<int>): (saldo: real)
      reads this
      ensures dateBefore.None? ==> saldo == 0.0
      ensures dateBefore.Some? ==>
        saldo + SumaConSigno(Ventana(movimientos, MovFecha, Rango(dateBefore, None))) == GetSaldoCaja()
    {
      if dateBefore.None? then 0.0
      else SumaConSignoAntes(movimientos, DayStart(dateBefore.value))
    }

    /** `getTotalVentasMes`: the net total of this month's sales, queried
        over [first of the month, first of the next month): the sales
        between the month's first and last second (0 when there are none). */
    function GetTotalVentasMes(hoy: YearMonth): (total: real)
      requires ValidMonth(hoy)
      reads this
      ensures ventas == [] ==> total == 0.0
      ensures total == NetoVentasEntre(ventas, MonthStart(hoy), MonthEnd(hoy))
    {
      MonthEndMeetsNext(hoy);
      VentasDelMes(ventas, MonthStart(hoy), MonthStart(NextMonth(hoy)), MonthEnd(hoy));
      NetoVentasDesdeHasta(ventas, MonthStart(hoy), MonthStart(NextMonth(hoy)))
    }

    /** One month of the chart: the total of the movements of the month
        whose `tipo` is "ingreso", and of those whose `tipo` is "egreso" (0
        for a column no movement matches). When every movement of the month
        is one or the other, inflow minus outflow is the month's net cash
        change. */
    function FlujoDelMes(ym: YearMonth): (f: FlujoMes)
      requires ValidMonth(ym)
      reads this
      ensures f.anio == ym.year && f.mes == ym.month
      ensures f.ingresos == SumaTipo(DelPeriodo(movimientos, MonthStart(ym), MonthEnd(ym)), "ingreso")
      ensures f.egresos == SumaTipo(DelPeriodo(movimientos, MonthStart(ym), MonthEnd(ym)), "egreso")
      ensures NingunoDeTipo(movimientos, "ingreso", MonthStart(ym), MonthEnd(ym)) ==> f.ingresos == 0.0
      ensures NingunoDeTipo(movimientos, "egreso", MonthStart(ym), MonthEnd(ym)) ==> f.egresos == 0.0
      ensures SoloIngresosYEgresos(movimientos, MonthStart(ym), MonthEnd(ym)) ==>
              f.ingresos - f.egresos == SumaConSignoEntre(movimientos, MonthStart(ym), MonthEnd(ym))
    {
      var lo, hi := MonthStart(ym), MonthEnd(ym);
      SumaTipoEntrePeriodo(movimientos, "ingreso", lo, hi);
      SumaTipoEntrePeriodo(movimientos, "egreso", lo, hi);
      FlujoPorTipo(movimientos, lo, hi);
      FlujoMes(ym.year, ym.month, SumaTipoEntre(movimientos, "ingreso", lo, hi), SumaTipoEntre(movimientos, "egreso", lo, hi))
    }

    /** `getMonthlyCashFlow`: six entries, from five months ago up to the
        current month, one month apart, each with that month's sums (zero
        for a month without movements). */
    method GetMonthlyCashFlow(hoy: YearMonth) returns (data: seq<FlujoMes>)
      requires ValidMonth(hoy)
      ensures |data| == 6
      ensures forall k :: 0 <= k < 6 ==> data[k] == FlujoDelMes(MonthsBack(hoy, 5 - k))
      ensures data[5].anio == hoy.year && data[5].mes == hoy.month
      ensures forall k :: 0 <= k < 5 ==>
        YearMonth(data[k + 1].anio, data[k + 1].mes) == NextMonth(YearMonth(data[k].anio, data[k].mes))
    {
      data := [];
      var i := 5;
      while i >= 0
        invariant -1 <= i <= 5
        invariant |data| == 5 - i
        invariant forall k :: 0 <= k < |data| ==> data[k] == FlujoDelMes(MonthsBack(hoy, 5 - k))
      {
        var ym := MonthsBack(hoy, i);
        data := data + [FlujoDelMes(ym)];
        i := i - 1;
      }
      forall k | 0 <= k < 6 ensures YearMonth(data[k].anio, data[k].mes) == MonthsBack(hoy, 5 - k) {
      }
      MesesSeguidos(hoy, data);
    }
  }
}
