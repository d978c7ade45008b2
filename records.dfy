/** The rows of the four tables (`productos`, `movimientos_caja`, `ventas`,
    `compras`), the rows the listings return, and the sums the queries and
    the browser compute over them. A row's auto-increment `id` is its
    position in its table. */
module Records {
  import opened Tables
  import opened Calendar
  import Iva

  /** A `productos` row: net unit cost, net unit sale price, stock. */
  datatype Producto = Producto(nombre: string, costoUnitarioNeto: real, precioVentaNeto: real, stock: int)

  /** A `movimientos_caja` row. `tipo` is whatever the caller sent: sales
      write "ingreso", purchases "egreso", and a plain movement any string. */
  datatype Movimiento = Movimiento(
    fecha: int,
    tipo: string,
    concepto: string,
    montoTotal: real,
    medioPago: string,
    afectaImpuestos: int,
    docTributarioAsociado: Option<string>)

  /** A `ventas` row, with the VAT breakdown of its total. */
  datatype Venta = Venta(
    fecha: int,
    productoId: int,
    cantidad: int,
    precioUnitarioNeto: real,
    montoNetoTotal: real,
    montoIva: real,
    montoTotalConIva: real,
    metodoPago: string,
    nDocumento: string)

  /** A `compras` row; product and quantity are NULL for a plain expense. */
  datatype Compra = Compra(
    fecha: int,
    productoId: Option<int>,
    cantidad: Option<int>,
    concepto: string,
    montoNeto: real,
    montoIva: real,
    montoTotalConIva: real,
    nDocumento: string)

  /** A sale or purchase joined with its product's name (LEFT JOIN: None
      when no product has that id). */
  datatype FilaVenta = FilaVenta(venta: Venta, nombreProducto: Option<string>)
  datatype FilaCompra = FilaCompra(compra: Compra, nombreProducto: Option<string>)

  /** A product as listed to the browser, with its prices shown VAT-inclusive. */
  datatype ProductoListado = ProductoListado(
    id: int,
    nombre: string,
    costoUnitarioConIva: real,
    precioVentaConIva: real,
    stock: int)

  function MovFecha(m: Movimiento): int { m.fecha }
  function FilaVentaFecha(f: FilaVenta): int { f.venta.fecha }
  function FilaCompraFecha(f: FilaCompra): int { f.compra.fecha }

  /** `ORDER BY fecha ASC` and `ORDER BY nombre`. */
  predicate MovAntes(a: Movimiento, b: Movimiento) { a.fecha <= b.fecha }
  predicate FilaVentaAntes(a: FilaVenta, b: FilaVenta) { a.venta.fecha <= b.venta.fecha }
  predicate FilaCompraAntes(a: FilaCompra, b: FilaCompra) { a.compra.fecha <= b.compra.fecha }
  predicate ProductoAntes(a: ProductoListado, b: ProductoListado) { LexLe(a.nombre, b.nombre) }

  lemma OrdersArePreorders()
    ensures TotalPreorder(MovAntes)
    ensures TotalPreorder(FilaVentaAntes)
    ensures TotalPreorder(FilaCompraAntes)
    ensures TotalPreorder(ProductoAntes)
  {
    forall a: ProductoListado, b: ProductoListado ensures ProductoAntes(a, b) || ProductoAntes(b, a) {
      LexLeTotal(a.nombre, b.nombre);
    }
    forall a: ProductoListado, b: ProductoListado, c: ProductoListado
      | ProductoAntes(a, b) && ProductoAntes(b, c)
      ensures ProductoAntes(a, c)
    {
      LexLeTransitive(a.nombre, b.nombre, c.nombre);
    }
  }

  /** The VAT identity every stored sale and purchase satisfies. */
  predicate VentaCuadrada(v: Venta) {
    v.montoNetoTotal + v.montoIva == v.montoTotalConIva &&
    v.montoNetoTotal * Iva.IVA_FACTOR == v.montoTotalConIva
  }

  predicate CompraCuadrada(c: Compra) {
    c.montoNeto + c.montoIva == c.montoTotalConIva &&
    c.montoNeto * Iva.IVA_FACTOR == c.montoTotalConIva
  }

  // ---------------------------------------------------------------------
  // Cash balances

  /** ASCII upper-case letters folded to lower case. */
  function Minuscula(c: char): char {
    if 'A' <= c <= 'Z' then (c as int + 32) as char else c
  }

  /** The `=` of the queries on `tipo`: a case-insensitive collation (the
      server default for utf8mb4) compares strings without regard to
      letter case. Only ASCII case is folded here. */
  predicate IgualSql(a: string, b: string) {
    |a| == |b| && forall i :: 0 <= i < |a| ==> Minuscula(a[i]) == Minuscula(b[i])
  }

  lemma IgualSqlHechos()
    ensures forall a: string :: IgualSql(a, a)
    ensures !IgualSql("Ingreso", "egreso") && IgualSql("Ingreso", "ingreso") && IgualSql("EGRESO", "egreso")
  {
    assert Minuscula('I') == 'i';
    assert Minuscula('E') == 'e' && Minuscula('G') == 'g' && Minuscula('R') == 'r';
    assert Minuscula('S') == 's' && Minuscula('O') == 'o';
  }

  /** `CASE WHEN tipo = 'ingreso' THEN monto_total ELSE -monto_total END`:
      any `tipo` that does not compare equal to "ingreso" counts as money
      going out. */
  function ConSigno(m: Movimiento): real {
    if IgualSql(m.tipo, "ingreso") then m.montoTotal else -m.montoTotal
  }

  /** The sum of `f` over the rows (0 for none). */
  function Suma<T>(s: seq<T>, f: T -> real): real {
    if s == [] then 0.0 else Suma(s[..|s| - 1], f) + f(s[|s| - 1])
  }

  /** One more row adds its own term. */
  lemma SumaPrefijo<T>(s: seq<T>, i: int, f: T -> real)
    requires 0 <= i < |s|
    ensures Suma(s[..i + 1], f) == Suma(s[..i], f) + f(s[i])
  {
    assert s[..i + 1][..i] == s[..i];
  }

  /** The signed sum of the movements (0 for none). */
  function SumaConSigno(s: seq<Movimiento>): real {
    Suma(s, ConSigno)
  }

  /** The signed sum of the movements strictly before `t`. */
  function SumaConSignoAntes(s: seq<Movimiento>, t: int): real {
    if s == [] then 0.0
    else
      var m := s[|s| - 1];
      SumaConSignoAntes(s[..|s| - 1], t) + (if m.fecha < t then ConSigno(m) else 0.0)
  }

  lemma {:induction false} SumaConSignoConcat(a: seq<Movimiento>, b: seq<Movimiento>)
    ensures SumaConSigno(a + b) == SumaConSigno(a) + SumaConSigno(b)
  {
    if b == [] {
      assert a + b == a;
    } else {
      var b' := b[..|b| - 1];
      SumaConSignoConcat(a, b');
      assert (a + b)[..|a + b| - 1] == a + b';
    }
  }

  lemma {:induction false} SumaConSignoInsert(r: seq<Movimiento>, x: Movimiento, le: (Movimiento, Movimiento) -> bool)
    ensures SumaConSigno(InsertBy(r, x, le)) == SumaConSigno(r) + ConSigno(x)
  {
    assert [x][..0] == [];
    assert SumaConSigno([x]) == Suma([x][..0], ConSigno) + ConSigno(x);
    if r == [] {
    } else if !le(r[0], x) {
      SumaConSignoConcat([x], r);
    } else {
      SumaConSignoInsert(r[1..], x, le);
      SumaConSignoConcat([r[0]], InsertBy(r[1..], x, le));
      SumaConSignoConcat([r[0]], r[1..]);
      assert [r[0]][..0] == [];
      assert r == [r[0]] + r[1..];
    }
  }

  /** Reordering the rows does not change their signed sum. */
  lemma {:induction false} SumaConSignoSort(s: seq<Movimiento>, le: (Movimiento, Movimiento) -> bool)
    ensures SumaConSigno(SortBy(s, le)) == SumaConSigno(s)
  {
    if s != [] {
      SumaConSignoSort(s[..|s| - 1], le);
      SumaConSignoInsert(SortBy(s[..|s| - 1], le), s[|s| - 1], le);
    }
  }

  /** The balance before a day plus the movements from that day on is the
      whole balance. */
  lemma {:induction false} SaldoPartido(s: seq<Movimiento>, d: int)
    ensures SumaConSignoAntes(s, DayStart(d)) + SumaConSigno(Ventana(s, MovFecha, Rango(Some(d), None)))
            == SumaConSigno(s)
  {
    if s != [] {
      var p, m := s[..|s| - 1], s[|s| - 1];
      var r := Rango(Some(d), None);
      SaldoPartido(p, d);
      assert s == p + [m];
      VentanaSnoc(p, m, MovFecha, r);
      var w := Ventana(p, MovFecha, r);
      if DayStart(d) <= m.fecha {
        assert Ventana(s, MovFecha, r) == w + [m];
        assert (w + [m])[..|w|] == w;
        assert SumaConSigno(w + [m]) == SumaConSigno(w) + ConSigno(m);
      } else {
        assert Ventana(s, MovFecha, r) == w;
      }
    }
  }

  // ---------------------------------------------------------------------
  // Monthly cash flow

  /** `SUM(CASE WHEN tipo = t THEN monto_total ELSE 0 END)` over the
      movements with `lo <= fecha <= hi` (0 when none match). */
  function SumaTipoEntre(s: seq<Movimiento>, tipo: string, lo: int, hi: int): real {
    if s == [] then 0.0
    else
      var m := s[|s| - 1];
      SumaTipoEntre(s[..|s| - 1], tipo, lo, hi) +
        (if IgualSql(m.tipo, tipo) && lo <= m.fecha <= hi then m.montoTotal else 0.0)
  }

  /** The total of the movements whose `tipo` compares equal to `tipo`. */
  function SumaTipo(s: seq<Movimiento>, tipo: string): real {
    if s == [] then 0.0
    else
      var m := s[|s| - 1];
      SumaTipo(s[..|s| - 1], tipo) + (if IgualSql(m.tipo, tipo) then m.montoTotal else 0.0)
  }

  /** The movements with `lo <= fecha <= hi`, in table order. */
  function DelPeriodo(s: seq<Movimiento>, lo: int, hi: int): (w: seq<Movimiento>)
    ensures |w| <= |s|
  {
    if s == [] then []
    else
      var w := DelPeriodo(s[..|s| - 1], lo, hi);
      var m := s[|s| - 1];
      if lo <= m.fecha <= hi then w + [m] else w
  }

  /** `DelPeriodo` keeps exactly the movements of the period. */
  lemma {:induction false} DelPeriodoFiltra(s: seq<Movimiento>, lo: int, hi: int)
    ensures forall m :: m in DelPeriodo(s, lo, hi) <==> m in s && lo <= m.fecha <= hi
  {
    if s != [] {
      var p := s[..|s| - 1];
      DelPeriodoFiltra(p, lo, hi);
      assert s == p + [s[|s| - 1]];
    }
  }

  /** The conditional sum of the query is the plain sum over the
      movements of the period. */
  lemma {:induction false} SumaTipoEntrePeriodo(s: seq<Movimiento>, tipo: string, lo: int, hi: int)
    ensures SumaTipoEntre(s, tipo, lo, hi) == SumaTipo(DelPeriodo(s, lo, hi), tipo)
  {
    if s != [] {
      var p, m := s[..|s| - 1], s[|s| - 1];
      SumaTipoEntrePeriodo(p, tipo, lo, hi);
      var w := DelPeriodo(p, lo, hi);
      if lo <= m.fecha <= hi {
        assert (w + [m])[..|w|] == w;
      }
    }
  }

  /** `BETWEEN 'first 00:00:00' AND 'last 23:59:59'` selects the rows the
      day window from `first` to `last` keeps. */
  lemma {:induction false} PeriodoEsVentana(s: seq<Movimiento>, d1: int, d2: int)
    ensures DelPeriodo(s, DayStart(d1), DayEnd(d2)) == Ventana(s, MovFecha, Rango(Some(d1), Some(d2)))
  {
    if s != [] {
      var p, m := s[..|s| - 1], s[|s| - 1];
      PeriodoEsVentana(p, d1, d2);
      assert s == p + [m];
      VentanaSnoc(p, m, MovFecha, Rango(Some(d1), Some(d2)));
    }
  }

  /** No movement with `lo <= fecha <= hi` has a `tipo` equal to `tipo`. */
  predicate NingunoDeTipo(s: seq<Movimiento>, tipo: string, lo: int, hi: int) {
    forall k :: 0 <= k < |s| && lo <= s[k].fecha <= hi ==> !IgualSql(s[k].tipo, tipo)
  }

  /** Every movement with `lo <= fecha <= hi` is an "ingreso" or an "egreso". */
  predicate SoloIngresosYEgresos(s: seq<Movimiento>, lo: int, hi: int) {
    forall k :: 0 <= k < |s| && lo <= s[k].fecha <= hi ==>
      IgualSql(s[k].tipo, "ingreso") || IgualSql(s[k].tipo, "egreso")
  }

  /** `SUM` over no matching row is NULL, which the endpoint reports as 0. */
  lemma {:induction false} SumaTipoEntreCero(s: seq<Movimiento>, tipo: string, lo: int, hi: int)
    requires NingunoDeTipo(s, tipo, lo, hi)
    ensures SumaTipoEntre(s, tipo, lo, hi) == 0.0
  {
    if s != [] {
      SumaTipoEntreCero(s[..|s| - 1], tipo, lo, hi);
    }
  }

  /** The signed sum over the movements with `lo <= fecha <= hi`. */
  function SumaConSignoEntre(s: seq<Movimiento>, lo: int, hi: int): real {
    if s == [] then 0.0
    else
      var m := s[|s| - 1];
      SumaConSignoEntre(s[..|s| - 1], lo, hi) + (if lo <= m.fecha <= hi then ConSigno(m) else 0.0)
  }

  /** Inflow minus outflow of a window is its net cash change, as long as
      every movement in it compares equal to "ingreso" or to "egreso"; a
      movement of any other `tipo` lowers the balance but shows in neither
      column. */
  lemma {:induction false} FlujoEsSaldo(s: seq<Movimiento>, lo: int, hi: int)
    requires SoloIngresosYEgresos(s, lo, hi)
    ensures SumaTipoEntre(s, "ingreso", lo, hi) - SumaTipoEntre(s, "egreso", lo, hi) == SumaConSignoEntre(s, lo, hi)
  {
    if s != [] {
      FlujoEsSaldo(s[..|s| - 1], lo, hi);
    }
  }

  // ---------------------------------------------------------------------
  // Sales totals

  /** `SUM(monto_neto_total)` over the sales with `lo <= fecha < hi`. */
  function NetoVentasDesdeHasta(s: seq<Venta>, lo: int, hi: int): real {
    if s == [] then 0.0
    else
      var v := s[|s| - 1];
      NetoVentasDesdeHasta(s[..|s| - 1], lo, hi) + (if lo <= v.fecha < hi then v.montoNetoTotal else 0.0)
  }

  /** `SUM(monto_neto_total)` over the sales with `lo <= fecha <= hi`. */
  function NetoVentasEntre(s: seq<Venta>, lo: int, hi: int): real {
    if s == [] then 0.0
    else
      var v := s[|s| - 1];
      NetoVentasEntre(s[..|s| - 1], lo, hi) + (if lo <= v.fecha <= hi then v.montoNetoTotal else 0.0)
  }

  /** On integer timestamps, `fecha < hi + 1` is `fecha <= hi`: the half-open
      window ending where the next begins is the closed one. */
  lemma {:induction false} NetoVentasEntreSemiabierto(s: seq<Venta>, lo: int, hi: int)
    ensures NetoVentasDesdeHasta(s, lo, hi + 1) == NetoVentasEntre(s, lo, hi)
  {
    if s != [] {
      NetoVentasEntreSemiabierto(s[..|s| - 1], lo, hi);
    }
  }

  /** The tax-inclusive total of the sales with `lo <= fecha < hi`. */
  function BrutoVentasDesdeHasta(s: seq<Venta>, lo: int, hi: int): real {
    if s == [] then 0.0
    else
      var v := s[|s| - 1];
      BrutoVentasDesdeHasta(s[..|s| - 1], lo, hi) + (if lo <= v.fecha < hi then v.montoTotalConIva else 0.0)
  }

  /** When every stored sale satisfies the VAT identity, so do the sums. */
  lemma {:induction false} NetoVentasCuadra(s: seq<Venta>, lo: int, hi: int)
    requires forall k :: 0 <= k < |s| ==> VentaCuadrada(s[k])
    ensures NetoVentasDesdeHasta(s, lo, hi) * Iva.IVA_FACTOR == BrutoVentasDesdeHasta(s, lo, hi)
  {
    if s != [] {
      NetoVentasCuadra(s[..|s| - 1], lo, hi);
    }
  }

  // ---------------------------------------------------------------------
  // Stock accounting

  /** Units of product `id` sold. */
  function Vendido(s: seq<Venta>, id: int): int {
    if s == [] then 0
    else
      var v := s[|s| - 1];
      Vendido(s[..|s| - 1], id) + (if v.productoId == id then v.cantidad else 0)
  }

  /** `if ($producto_id && $cantidad)`: a purchase moves stock only when
      both its product id and its quantity are present and non-zero. */
  predicate Acredita(c: Compra) {
    c.productoId.Some? && c.productoId.value != 0 && c.cantidad.Some? && c.cantidad.value != 0
  }

  /** Units of product `id` bought into stock. */
  function Comprado(s: seq<Compra>, id: int): int {
    if s == [] then 0
    else
      var c := s[|s| - 1];
      Comprado(s[..|s| - 1], id) + (if Acredita(c) && c.productoId.value == id then c.cantidad.value else 0)
  }

  lemma VendidoSnoc(s: seq<Venta>, v: Venta, id: int)
    ensures Vendido(s + [v], id) == Vendido(s, id) + (if v.productoId == id then v.cantidad else 0)
  {
    assert (s + [v])[..|s|] == s;
  }

  lemma CompradoSnoc(s: seq<Compra>, c: Compra, id: int)
    ensures Comprado(s + [c], id) ==
            Comprado(s, id) + (if Acredita(c) && c.productoId.value == id then c.cantidad.value else 0)
  {
    assert (s + [c])[..|s|] == s;
  }
}
