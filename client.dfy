/** The calculations the browser does on what the API returns: the running
    balance of the cash book, the net and VAT totals under the two tax
    registers (RCV), the breakdowns shown while a sale or purchase form is
    filled in, and the stock check made before a sale is sent.

    A number read from a form field or a JSON string is `Some(x)` when it
    parses and `None` when it is NaN. */
module Client {
  import opened Tables
  import opened Records
  import opened Ledger
  import Iva

  // ---------------------------------------------------------------------
  // Running balance of the cash book

  /** `parseFloat(saldo_inicial) || 0`: NaN starts from 0 (and so does 0). */
  function SaldoDePartida(saldoInicial: Option<real>): (b: real)
    ensures saldoInicial.Some? ==> b == saldoInicial.value
    ensures saldoInicial.None? ==> b == 0.0
  {
    match saldoInicial
    case None => 0.0
    case Some(x) => if x == 0.0 then 0.0 else x
  }

  /** `mov.tipo === 'ingreso' ? +monto : -monto`: the browser compares
      `tipo` exactly, letter case included. */
  function ConSignoJs(m: Movimiento): real {
    if m.tipo == "ingreso" then m.montoTotal else -m.montoTotal
  }

  /** The balance column of `loadLibroCaja`: the starting balance, then
      each row adds its amount when it is an "ingreso" and subtracts it
      otherwise. Row `k` shows the starting balance plus the signed sum of
      rows `0..k`, and each row differs from the one above by its own signed
      amount. */
  method SaldosLibroCaja(saldoInicial: Option<real>, movs: seq<Movimiento>) returns (saldos: seq<real>)
    ensures |saldos| == |movs|
    ensures forall k :: 0 <= k < |movs| ==> saldos[k] == SaldoDePartida(saldoInicial) + Suma(movs[..k + 1], ConSignoJs)
    ensures |movs| > 0 ==> saldos[0] == SaldoDePartida(saldoInicial) + ConSignoJs(movs[0])
    ensures forall k :: 0 < k < |movs| ==> saldos[k] == saldos[k - 1] + ConSignoJs(movs[k])
  {
    var saldoAcumulado := SaldoDePartida(saldoInicial);
    saldos := [];
    for i := 0 to |movs|
      invariant |saldos| == i
      invariant saldoAcumulado == SaldoDePartida(saldoInicial) + Suma(movs[..i], ConSignoJs)
      invariant forall k :: 0 <= k < i ==> saldos[k] == SaldoDePartida(saldoInicial) + Suma(movs[..k + 1], ConSignoJs)
    {
      var mov := movs[i];
      saldoAcumulado := saldoAcumulado + (if mov.tipo == "ingreso" then mov.montoTotal else -mov.montoTotal);
      SumaPrefijo(movs, i, ConSignoJs);
      saldos := saldos + [saldoAcumulado];
    }
    forall k | 0 <= k < |movs|
      ensures saldos[k] == (if k == 0 then SaldoDePartida(saldoInicial) else saldos[k - 1]) + ConSignoJs(movs[k])
    {
      SumaPrefijo(movs, k, ConSignoJs);
      assert movs[..0] == [];
    }
  }

  /** Where no row's `tipo` is a differently-cased "ingreso", the browser's
      signed sum is the server's. */
  lemma {:induction false} SumaJsEsSql(s: seq<Movimiento>)
    requires forall k :: 0 <= k < |s| && IgualSql(s[k].tipo, "ingreso") ==> s[k].tipo == "ingreso"
    ensures Suma(s, ConSignoJs) == SumaConSigno(s)
  {
    if s != [] {
      SumaJsEsSql(s[..|s| - 1]);
      IgualSqlHechos();
    }
  }

  /** With the start of `get_libro_caja_saldo_inicial` for day `d` and the
      rows `get_libro_caja` lists from `d` on, in date order, the bottom of
      the balance column is the current cash balance (`get_saldo_caja`),
      as long as every `tipo` the server reads as "ingreso" is spelt
      exactly so. */
  lemma SaldoFinalEsSaldoCaja(libro: Libro, d: int)
    requires forall m :: m in libro.movimientos && IgualSql(m.tipo, "ingreso") ==> m.tipo == "ingreso"
    ensures var filas := SortBy(Ventana(libro.movimientos, MovFecha, Rango(Some(d), None)), MovAntes);
      libro.GetLibroCajaSaldoInicial(Some(d)) + Suma(filas, ConSignoJs) == libro.GetSaldoCaja()
  {
    var w := Ventana(libro.movimientos, MovFecha, Rango(Some(d), None));
    var filas := SortBy(w, MovAntes);
    OrdersArePreorders();
    SortBySortsAndPermutes(w, MovAntes);
    forall k | 0 <= k < |filas| ensures filas[k] in libro.movimientos {
      assert filas[k] in multiset(w);
    }
    SumaJsEsSql(filas);
    SumaConSignoSort(w, MovAntes);
  }

  /** Where the two comparisons part: a movement stored with `tipo`
      "Ingreso" raises the server's balance and lowers the browser's. */
  lemma SaldoDivergeConMayusculas()
    ensures var m := Movimiento(0, "Ingreso", "", 100.0, "", 0, None);
      ConSigno(m) == 100.0 && ConSignoJs(m) == -100.0
  {
    IgualSqlHechos();
  }

  // ---------------------------------------------------------------------
  // Totals under the tax registers

  /** Summing row by row what adds up row by row: when each row's `f` and
      `g` add up to its `h`, the sums do too, and likewise for a factor. */
  lemma {:induction false} SumaCuadra<T>(s: seq<T>, f: T -> real, g: T -> real, h: T -> real, factor: real)
    requires forall k :: 0 <= k < |s| ==> f(s[k]) + g(s[k]) == h(s[k]) && f(s[k]) * factor == h(s[k])
    ensures Suma(s, f) + Suma(s, g) == Suma(s, h)
    ensures Suma(s, f) * factor == Suma(s, h)
  {
    if s != [] {
      SumaCuadra(s[..|s| - 1], f, g, h, factor);
    }
  }

  function NetoVenta(f: FilaVenta): real { f.venta.montoNetoTotal }
  function IvaVenta(f: FilaVenta): real { f.venta.montoIva }
  function BrutoVenta(f: FilaVenta): real { f.venta.montoTotalConIva }
  function NetoCompra(f: FilaCompra): real { f.compra.montoNeto }
  function IvaCompra(f: FilaCompra): real { f.compra.montoIva }
  function BrutoCompra(f: FilaCompra): real { f.compra.montoTotalConIva }

  /** The loop of `loadRcvVentas`: `totalNeto` and `totalIVA` are the sums
      of the listed rows' net and VAT amounts. When every row satisfies the
      VAT identity, the two totals add up to the rows' tax-inclusive total
      and the VAT total is the debit on the net total. */
  method TotalesRcvVentas(filas: seq<FilaVenta>) returns (totalNeto: real, totalIva: real)
    ensures totalNeto == Suma(filas, NetoVenta) && totalIva == Suma(filas, IvaVenta)
    ensures (forall k :: 0 <= k < |filas| ==> VentaCuadrada(filas[k].venta)) ==>
      totalNeto + totalIva == Suma(filas, BrutoVenta) && totalNeto * Iva.IVA_FACTOR == Suma(filas, BrutoVenta)
  {
    totalNeto, totalIva := 0.0, 0.0;
    for i := 0 to |filas|
      invariant totalNeto == Suma(filas[..i], NetoVenta) && totalIva == Suma(filas[..i], IvaVenta)
    {
      SumaPrefijo(filas, i, NetoVenta);
      SumaPrefijo(filas, i, IvaVenta);
      totalNeto := totalNeto + filas[i].venta.montoNetoTotal;
      totalIva := totalIva + filas[i].venta.montoIva;
    }
    assert filas[..|filas|] == filas;
    TotalesVentasCuadran(filas);
  }

  lemma TotalesVentasCuadran(filas: seq<FilaVenta>)
    ensures (forall k :: 0 <= k < |filas| ==> VentaCuadrada(filas[k].venta)) ==>
      Suma(filas, NetoVenta) + Suma(filas, IvaVenta) == Suma(filas, BrutoVenta) &&
      Suma(filas, NetoVenta) * Iva.IVA_FACTOR == Suma(filas, BrutoVenta)
  {
    if forall k :: 0 <= k < |filas| ==> VentaCuadrada(filas[k].venta) {
      SumaCuadra(filas, NetoVenta, IvaVenta, BrutoVenta, Iva.IVA_FACTOR);
    }
  }

  /** The loop of `loadRcvCompras`, likewise over purchase rows. */
  method TotalesRcvCompras(filas: seq<FilaCompra>) returns (totalNeto: real, totalIva: real)
    ensures totalNeto == Suma(filas, NetoCompra) && totalIva == Suma(filas, IvaCompra)
    ensures (forall k :: 0 <= k < |filas| ==> CompraCuadrada(filas[k].compra)) ==>
      totalNeto + totalIva == Suma(filas, BrutoCompra) && totalNeto * Iva.IVA_FACTOR == Suma(filas, BrutoCompra)
  {
    totalNeto, totalIva := 0.0, 0.0;
    for i := 0 to |filas|
      invariant totalNeto == Suma(filas[..i], NetoCompra) && totalIva == Suma(filas[..i], IvaCompra)
    {
      SumaPrefijo(filas, i, NetoCompra);
      SumaPrefijo(filas, i, IvaCompra);
      totalNeto := totalNeto + filas[i].compra.montoNeto;
      totalIva := totalIva + filas[i].compra.montoIva;
    }
    assert filas[..|filas|] == filas;
    TotalesComprasCuadran(filas);
  }

  lemma TotalesComprasCuadran(filas: seq<FilaCompra>)
    ensures (forall k :: 0 <= k < |filas| ==> CompraCuadrada(filas[k].compra)) ==>
      Suma(filas, NetoCompra) + Suma(filas, IvaCompra) == Suma(filas, BrutoCompra) &&
      Suma(filas, NetoCompra) * Iva.IVA_FACTOR == Suma(filas, BrutoCompra)
  {
    if forall k :: 0 <= k < |filas| ==> CompraCuadrada(filas[k].compra) {
      SumaCuadra(filas, NetoCompra, IvaCompra, BrutoCompra, Iva.IVA_FACTOR);
    }
  }

  /** Every sale the ledger has stored satisfies the VAT identity, so every
      row `get_rcv_ventas` lists does, and its totals add up. */
  lemma RcvVentasCuadran(libro: Libro, rango: Rango, filas: seq<FilaVenta>)
    requires libro.Valid()
    requires filas == SortBy(Ventana(UnirVentas(libro.ventas, libro.productos), FilaVentaFecha, rango), FilaVentaAntes)
    ensures forall k :: 0 <= k < |filas| ==> VentaCuadrada(filas[k].venta)
  {
    assert FilasCuadradas(libro.Actual());
    VentasListadasCuadran(libro.ventas, libro.productos, rango);
  }

  lemma VentasListadasCuadran(ventas: seq<Venta>, productos: map<int, Producto>, rango: Rango)
    requires forall k :: 0 <= k < |ventas| ==> VentaCuadrada(ventas[k])
    ensures var filas := SortBy(Ventana(UnirVentas(ventas, productos), FilaVentaFecha, rango), FilaVentaAntes);
      forall k :: 0 <= k < |filas| ==> VentaCuadrada(filas[k].venta)
  {
    var unidas := UnirVentas(ventas, productos);
    var w := Ventana(unidas, FilaVentaFecha, rango);
    var filas := SortBy(w, FilaVentaAntes);
    OrdersArePreorders();
    SortBySortsAndPermutes(w, FilaVentaAntes);
    forall k | 0 <= k < |filas| ensures VentaCuadrada(filas[k].venta) {
      assert filas[k] in multiset(w);
      var j :| 0 <= j < |w| && w[j] == filas[k];
      var i :| 0 <= i < |unidas| && unidas[i] == w[j];
    }
  }

  /** The same for the purchases `get_rcv_compras` lists. */
  lemma RcvComprasCuadran(libro: Libro, rango: Rango, filas: seq<FilaCompra>)
    requires libro.Valid()
    requires filas == SortBy(Ventana(UnirCompras(libro.compras, libro.productos), FilaCompraFecha, rango), FilaCompraAntes)
    ensures forall k :: 0 <= k < |filas| ==> CompraCuadrada(filas[k].compra)
  {
    assert FilasCuadradas(libro.Actual());
    ComprasListadasCuadran(libro.compras, libro.productos, rango);
  }

  lemma ComprasListadasCuadran(compras: seq<Compra>, productos: map<int, Producto>, rango: Rango)
    requires forall k :: 0 <= k < |compras| ==> CompraCuadrada(compras[k])
    ensures var filas := SortBy(Ventana(UnirCompras(compras, productos), FilaCompraFecha, rango), FilaCompraAntes);
      forall k :: 0 <= k < |filas| ==> CompraCuadrada(filas[k].compra)
  {
    var unidas := UnirCompras(compras, productos);
    var w := Ventana(unidas, FilaCompraFecha, rango);
    var filas := SortBy(w, FilaCompraAntes);
    OrdersArePreorders();
    SortBySortsAndPermutes(w, FilaCompraAntes);
    forall k | 0 <= k < |filas| ensures CompraCuadrada(filas[k].compra) {
      assert filas[k] in multiset(w);
      var j :| 0 <= j < |w| && w[j] == filas[k];
      var i :| 0 <= i < |unidas| && unidas[i] == w[j];
    }
  }

  // ---------------------------------------------------------------------
  // Form breakdowns

  /** The three outputs of the sale form. */
  datatype TotalesFormulario = TotalesFormulario(neto: real, iva: real, total: real)

  /** `calcularTotalesVenta`: no breakdown (the outputs are cleared) when
      the quantity or the VAT-inclusive unit price is NaN or not positive;
      otherwise the total is quantity times price, split into net and VAT
      exactly as the server splits the amount it is sent. */
  function TotalesVenta(cantidad: Option<int>, precioConIva: Option<real>): (r: Option<TotalesFormulario>)
    ensures r.Some? <==> cantidad.Some? && precioConIva.Some? && cantidad.value > 0 && precioConIva.value > 0.0
    ensures r.Some? ==>
      r.value.total == cantidad.value as real * precioConIva.value &&
      r.value.neto + r.value.iva == r.value.total &&
      r.value.neto * Iva.IVA_FACTOR == r.value.total &&
      Iva.Desglosar(r.value.total) == Iva.Desglose(r.value.neto, r.value.iva) &&
      0.0 < r.value.neto && 0.0 < r.value.iva
  {
    if cantidad.None? || precioConIva.None? || cantidad.value <= 0 || precioConIva.value <= 0.0 then None
    else
      var montoTotal := cantidad.value as real * precioConIva.value;
      assert montoTotal > 0.0 by {
        assert cantidad.value as real >= 1.0;
        assert montoTotal >= precioConIva.value;
      }
      var desglose := Iva.Desglosar(montoTotal);
      Some(TotalesFormulario(desglose.neto, desglose.iva, montoTotal))
  }

  /** `calcularTotalesCompra`: no breakdown when the VAT-inclusive total is
      NaN or not positive; otherwise the server's split of that total. */
  function TotalesCompra(totalConIva: Option<real>): (r: Option<Iva.Desglose>)
    ensures r.Some? <==> totalConIva.Some? && totalConIva.value > 0.0
    ensures r.Some? ==>
      r.value.neto + r.value.iva == totalConIva.value &&
      r.value.neto * Iva.IVA_FACTOR == totalConIva.value &&
      r.value == Iva.Desglosar(totalConIva.value) &&
      0.0 < r.value.neto && 0.0 < r.value.iva
  {
    if totalConIva.None? || totalConIva.value <= 0.0 then None
    else
      Some(Iva.Desglosar(totalConIva.value))
  }

  /** The net total the sale form shows is `cantidad` times the net unit
      price the server stores for that sale. */
  lemma TotalesVentaNetoUnitario(cantidad: int, precioConIva: real)
    requires cantidad > 0 && precioConIva > 0.0
    ensures TotalesVenta(Some(cantidad), Some(precioConIva)).value.neto == cantidad as real * Iva.Neto(precioConIva)
  {
    Iva.NetoLineal(cantidad, precioConIva);
  }

  // ---------------------------------------------------------------------
  // Stock check before a sale is sent

  /** The `data-stock` attribute of the selected product's `<option>`:
      absent or empty, a number, or something `parseInt` reads as NaN. */
  datatype AtributoStock = Vacio | Numero(n: int) | NoNumerico

  /** What `registrarVenta` does after its stock check. */
  datatype Chequeo = Enviar | StockInsuficienteLocal | SinOpcion

  /** `parseInt(stockElement.dataset.stock || '0')` and `cantidad >
      currentStock`. There is no `<option>` for the product: reading its
      attribute throws and nothing is sent. An absent stock counts as 0. A
      comparison with NaN is false, so a NaN quantity or stock lets the sale
      through to the server. */
  function ChequeoStock(cantidad: Option<int>, opcion: Option<AtributoStock>): (c: Chequeo)
    ensures c == SinOpcion <==> opcion.None?
    ensures c == StockInsuficienteLocal <==>
      opcion.Some? && cantidad.Some? &&
      ((opcion.value.Vacio? && cantidad.value > 0) || (opcion.value.Numero? && cantidad.value > opcion.value.n))
  {
    match opcion
    case None => SinOpcion
    case Some(atributo) =>
      var stockActual: Option<int> := match atributo
        case Vacio => Some(0)
        case Numero(n) => Some(n)
        case NoNumerico => None;
      if cantidad.Some? && stockActual.Some? && cantidad.value > stockActual.value then StockInsuficienteLocal
      else Enviar
  }

  /** When the option shows the stock `get_products` listed and nothing has
      been sold since, the browser refuses exactly the sales the server
      would refuse for stock. */
  lemma ChequeoStockCoincide(productos: map<int, Producto>, id: int, cantidad: int)
    requires id in productos
    ensures ChequeoStock(Some(cantidad), Some(Numero(Listar(id, productos[id]).stock))) == StockInsuficienteLocal
            <==> SuperaStock(cantidad, StockDe(productos, id))
  {
  }
}
