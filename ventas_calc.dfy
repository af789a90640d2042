/**
 * The sales chart of one product (core/web/src/mathCalculus/VentasCalc.tsx):
 * `datosGrafica`, which turns the product's monthly sales records into
 * chart rows (a copy sorted by year and month, each row with its period
 * label, month-on-month growth in percent and running total), with a fixed
 * demonstration series when there are no records; and `estadisticas`, the
 * summary figures shown beside the chart.
 *
 * Units and the arithmetic on them are exact: the growth and averages are
 * computed on rationals and then rounded as `Math.round` does.
 */
module VentasCalc {
  import opened Wrappers
  import opened Text
  import Months
  import StableSort
  import CorrelacionUtils

  /** `DatoVenta`: one month's sales record. */
  datatype DatoVenta = DatoVenta(id: int, month: int, year: int, unitsSold: int, resourceId: int)

  /** A chart row; the rows of the demonstration series have no id. */
  datatype Fila = Fila(periodo: string, ventas: int, crecimiento: int, acumulado: int,
                       mes: int, anio: int, id: Option<int>)

  // ---------------------------------------------------------------------
  // datosGrafica
  // ---------------------------------------------------------------------

  /** The series shown when there are no records: July 2024 to June 2025. */
  const DemoFilas: seq<Fila> := [
    Fila("Jul 2024", 10, 0, 10, 7, 2024, None),
    Fila("Ago 2024", 12, 20, 22, 8, 2024, None),
    Fila("Sep 2024", 2, -83, 24, 9, 2024, None),
    Fila("Oct 2024", 3, 50, 27, 10, 2024, None),
    Fila("Nov 2024", 4, 33, 31, 11, 2024, None),
    Fila("Dic 2024", 4, 0, 35, 12, 2024, None),
    Fila("Ene 2025", 4, 0, 39, 1, 2025, None),
    Fila("Feb 2025", 4, 0, 43, 2, 2025, None),
    Fila("Mar 2025", 4, 0, 47, 3, 2025, None),
    Fila("Abr 2025", 5, 25, 52, 4, 2025, None),
    Fila("May 2025", 5, 0, 57, 5, 2025, None),
    Fila("Jun 2025", 8, 60, 65, 6, 2025, None)
  ]

  /** The sort key: year, then month. */
  function VentaKey(v: DatoVenta): StableSort.Key {
    (v.year, v.month)
  }

  /** `nombresMeses[month - 1] || \`Mes ${month}\``. */
  function NombreMes(month: int): (name: string)
    ensures 1 <= month <= 12 ==> name == Months.Abbrevs()[month - 1]
    ensures !(1 <= month <= 12) ==> name == "Mes " + IntToString(month)
  {
    if 1 <= month <= 12 then Months.Abbrevs()[month - 1] else "Mes " + IntToString(month)
  }

  function Periodo(v: DatoVenta): string {
    NombreMes(v.month) + " " + IntToString(v.year)
  }

  /** `Math.round(((cur - prev) / prev) * 100)`: the change as a whole percentage of the earlier figure. */
  function GrowthPercent(prev: int, cur: int): (g: int)
    requires prev > 0
    ensures (cur > prev ==> g >= 0) && (cur < prev ==> g <= 0) && (cur == prev ==> g == 0)
    ensures cur >= 0 ==> g >= -100
  {
    PercentSign(prev, cur);
    CorrelacionUtils.Round(((cur - prev) as real / prev as real) * 100.0)
  }

  /** The sign of the percentage change follows the sign of the difference, and a fall is at most 100%. */
  lemma PercentSign(prev: int, cur: int)
    requires prev > 0
    ensures var x := ((cur - prev) as real / prev as real) * 100.0;
      (cur > prev ==> x > 0.0) && (cur < prev ==> x < 0.0) && (cur == prev ==> x == 0.0) &&
      (cur >= 0 ==> x >= -100.0)
  {
    var p, d := prev as real, (cur - prev) as real;
    var r := d / p;
    assert r * p == d;
    if cur >= 0 {
      assert (r + 1.0) * p == d + p;
      assert d + p >= 0.0;
    }
  }

  /** The growth from one period to the next: 0 unless the earlier period sold something. */
  function Growth(prev: int, cur: int): (g: int)
    ensures prev <= 0 ==> g == 0
  {
    if prev > 0 then GrowthPercent(prev, cur) else 0
  }

  /** The growth of row `i`: 0 for the first one. */
  function Crecimiento(s: seq<DatoVenta>, i: nat): int
    requires i < |s|
  {
    if i == 0 then 0 else Growth(s[i - 1].unitsSold, s[i].unitsSold)
  }

  /** The units sold over all the records. */
  function UnitsSum(s: seq<DatoVenta>): int {
    if s == [] then 0 else UnitsSum(s[..|s| - 1]) + s[|s| - 1].unitsSold
  }

  /** The rows of already sorted records. */
  function Filas(s: seq<DatoVenta>): (rows: seq<Fila>)
    ensures |rows| == |s|
  {
    seq(|s|, i requires 0 <= i < |s| =>
      Fila(Periodo(s[i]), s[i].unitsSold, Crecimiento(s, i), UnitsSum(s[..i + 1]), s[i].month, s[i].year, Some(s[i].id)))
  }

  /**
   * `datosGrafica`: the demonstration series without records; otherwise a
   * sorted copy of the records, walked once with a running total.
   */
  method DatosGrafica(datosVentas: seq<DatoVenta>) returns (rows: seq<Fila>)
    ensures datosVentas == [] ==> rows == DemoFilas
    ensures datosVentas != [] ==> rows == Filas(StableSort.SortBy(datosVentas, VentaKey))
  {
    if |datosVentas| == 0 {
      return DemoFilas;
    }
    var datosOrdenados := new DatoVenta[|datosVentas|](i requires 0 <= i < |datosVentas| => datosVentas[i]);
    assert datosOrdenados[..] == datosVentas;
    StableSort.SortInPlace(datosOrdenados, VentaKey);
    rows := FilasDeOrdenados(datosOrdenados);
  }

  /** The loop of `datosGrafica` over the sorted copy: one row per record, with the running total. */
  method FilasDeOrdenados(datosOrdenados: array<DatoVenta>) returns (rows: seq<Fila>)
    ensures rows == Filas(datosOrdenados[..])
  {
    ghost var s := datosOrdenados[..];
    var acumulado := 0;
    rows := [];
    for index := 0 to datosOrdenados.Length
      invariant rows == Filas(s)[..index]
      invariant acumulado == UnitsSum(s[..index])
    {
      var venta := datosOrdenados[index];
      var crecimiento := 0;
      if index > 0 {
        var ventaAnterior := datosOrdenados[index - 1];
        if ventaAnterior.unitsSold > 0 {
          crecimiento := GrowthPercent(ventaAnterior.unitsSold, venta.unitsSold);
        }
      }
      assert crecimiento == Crecimiento(s, index);
      UnitsSumStep(s, index);
      FilaAt(s, index);
      SnocSlice(Filas(s), index);
      acumulado := acumulado + venta.unitsSold;
      rows := rows + [Fila(Periodo(venta), venta.unitsSold, crecimiento, acumulado, venta.month, venta.year, Some(venta.id))];
    }
  }

  /** The running total adds each row's units to the previous total, and the first row has no growth. */
  lemma FilasRunningTotal(s: seq<DatoVenta>, i: nat)
    requires i < |s|
    ensures Filas(s)[i].acumulado == (if i == 0 then 0 else Filas(s)[i - 1].acumulado) + s[i].unitsSold
    ensures i == 0 ==> Filas(s)[i].crecimiento == 0
    ensures i > 0 && s[i - 1].unitsSold <= 0 ==> Filas(s)[i].crecimiento == 0
  {
    FilasAcumulado(s, i);
    FilasCrecimiento(s, i);
  }

  lemma FilasAcumulado(s: seq<DatoVenta>, i: nat)
    requires i < |s|
    ensures Filas(s)[i].acumulado == (if i == 0 then 0 else Filas(s)[i - 1].acumulado) + s[i].unitsSold
  {
    UnitsSumStep(s, i);
    if i > 0 {
      assert Filas(s)[i - 1].acumulado == UnitsSum(s[..i]);
    }
  }

  lemma FilasCrecimiento(s: seq<DatoVenta>, i: nat)
    requires i < |s|
    ensures Filas(s)[i].crecimiento == Crecimiento(s, i)
  {
  }

  /** Row `i` of the table, field by field. */
  lemma FilaAt(s: seq<DatoVenta>, i: nat)
    requires i < |s|
    ensures Filas(s)[i] == Fila(Periodo(s[i]), s[i].unitsSold, Crecimiento(s, i), UnitsSum(s[..i + 1]),
                                s[i].month, s[i].year, Some(s[i].id))
  {
  }

  lemma SnocSlice<T>(f: seq<T>, i: nat)
    requires i < |f|
    ensures f[..i] + [f[i]] == f[..i + 1]
  {
  }

  lemma UnitsSumStep(s: seq<DatoVenta>, i: nat)
    requires i < |s|
    ensures UnitsSum(s[..i + 1]) == UnitsSum(s[..i]) + s[i].unitsSold
  {
    assert s[..i + 1][..i] == s[..i];
  }

  /** Removing one record from the total subtracts its units. */
  lemma {:induction false} UnitsSumRemove(s: seq<DatoVenta>, k: nat)
    requires k < |s|
    ensures UnitsSum(s) == UnitsSum(s[..k] + s[k + 1..]) + s[k].unitsSold
  {
    var n := |s| - 1;
    if k < n {
      UnitsSumRemove(s[..n], k);
      assert s[..n][..k] + s[..n][k + 1..] == (s[..k] + s[k + 1..])[..n - 1];
      assert (s[..k] + s[k + 1..])[n - 1] == s[n];
    } else {
      assert s[..k] + s[k + 1..] == s[..n];
    }
  }

  /** Taking the last element off one side and a copy of it off the other keeps two permutations permutations. */
  lemma RemoveMatching<T>(a: seq<T>, b: seq<T>, k: nat)
    requires a != [] && multiset(a) == multiset(b) && k < |b| && b[k] == a[|a| - 1]
    ensures multiset(a[..|a| - 1]) == multiset(b[..k] + b[k + 1..])
  {
    var x, a', b' := a[|a| - 1], a[..|a| - 1], b[..k] + b[k + 1..];
    assert b == b[..k] + [x] + b[k + 1..];
    assert a == a' + [x];
    assert multiset(b) == multiset(b') + multiset{x};
    assert multiset(a) == multiset(a') + multiset{x};
    calc {
      multiset(a');
      multiset(a) - multiset{x};
      multiset(b) - multiset{x};
      multiset(b');
    }
  }

  /** The total does not depend on the order of the records. */
  lemma {:induction false} UnitsSumPermutation(a: seq<DatoVenta>, b: seq<DatoVenta>)
    requires multiset(a) == multiset(b)
    ensures UnitsSum(a) == UnitsSum(b)
    decreases |a|
  {
    if a != [] {
      var x, a' := a[|a| - 1], a[..|a| - 1];
      assert x in multiset(b);
      var k :| 0 <= k < |b| && b[k] == x;
      var b' := b[..k] + b[k + 1..];
      assert multiset(a') == multiset(b') by {
        RemoveMatching(a, b, k);
      }
      assert UnitsSum(a') == UnitsSum(b') by {
        UnitsSumPermutation(a', b');
      }
      assert UnitsSum(b) == UnitsSum(b') + x.unitsSold by {
        UnitsSumRemove(b, k);
      }
    } else {
      assert |multiset(b)| == 0;
    }
  }

  /**
   * The rows of a product with records come in (year, month) order, one
   * per record, and the last running total is the product's total units.
   */
  lemma DatosGraficaOrderAndTotal(datosVentas: seq<DatoVenta>)
    requires datosVentas != []
    ensures var s := StableSort.SortBy(datosVentas, VentaKey);
      var rows := Filas(s);
      |rows| == |datosVentas| &&
      (forall i, j :: 0 <= i < j < |rows| ==> StableSort.KeyLe((rows[i].anio, rows[i].mes), (rows[j].anio, rows[j].mes))) &&
      rows[|rows| - 1].acumulado == UnitsSum(datosVentas)
  {
    var s := StableSort.SortBy(datosVentas, VentaKey);
    StableSort.SortBySorted(datosVentas, VentaKey);
    StableSort.SortByPermutes(datosVentas, VentaKey);
    UnitsSumPermutation(s, datosVentas);
    assert s[..|s|] == s;
  }

  /** The records behind the demonstration series. */
  function DemoVentas(): seq<DatoVenta> {
    [DatoVenta(0, 7, 2024, 10, 0), DatoVenta(0, 8, 2024, 12, 0), DatoVenta(0, 9, 2024, 2, 0),
     DatoVenta(0, 10, 2024, 3, 0), DatoVenta(0, 11, 2024, 4, 0), DatoVenta(0, 12, 2024, 4, 0),
     DatoVenta(0, 1, 2025, 4, 0), DatoVenta(0, 2, 2025, 4, 0), DatoVenta(0, 3, 2025, 4, 0),
     DatoVenta(0, 4, 2025, 5, 0), DatoVenta(0, 5, 2025, 5, 0), DatoVenta(0, 6, 2025, 8, 0)]
  }

  lemma DemoGrowth()
    ensures Growth(10, 12) == 20 && Growth(12, 2) == -83 && Growth(2, 3) == 50 && Growth(3, 4) == 33
    ensures Growth(4, 4) == 0 && Growth(4, 5) == 25 && Growth(5, 5) == 0 && Growth(5, 8) == 60
  {
    assert ((2 - 12) as real / 12 as real) * 100.0 == -1000.0 / 12.0;
    assert ((4 - 3) as real / 3 as real) * 100.0 == 100.0 / 3.0;
  }

  /**
   * The demonstration series is what the same computation makes of its
   * own monthly sales: its growth figures and running totals agree with
   * the formula.
   */
  lemma DemoConsistent()
    ensures |DemoFilas| == |DemoVentas()|
    ensures forall i :: 0 <= i < |DemoFilas| ==>
      DemoFilas[i].ventas == DemoVentas()[i].unitsSold &&
      DemoFilas[i].crecimiento == Crecimiento(DemoVentas(), i) &&
      DemoFilas[i].acumulado == UnitsSum(DemoVentas()[..i + 1])
  {
    DemoGrowth();
    var d := DemoVentas();
    forall i | 0 <= i < |d| ensures DemoFilas[i].acumulado == UnitsSum(d[..i + 1]) {
      DemoPrefix(i);
    }
  }

  lemma DemoPrefix(i: nat)
    requires i < 12
    ensures DemoFilas[i].acumulado == UnitsSum(DemoVentas()[..i + 1])
  {
    var d := DemoVentas();
    if i > 0 {
      DemoPrefix(i - 1);
      assert d[..i + 1][..i] == d[..i];
    }
  }

  // ---------------------------------------------------------------------
  // estadisticas
  // ---------------------------------------------------------------------

  datatype Estadisticas = Estadisticas(
    totalVentas: int, promedioMensual: int, mejorMes: string, peorMes: string,
    tendenciaGeneral: string, crecimientoTotal: int, ventaMaxima: int, ventaMinima: int)

  const SinDatos: Estadisticas := Estadisticas(0, 0, "N/A", "N/A", "Sin datos", 0, 0, 0)

  predicate AllZero(rows: seq<Fila>) {
    forall i :: 0 <= i < |rows| ==> rows[i].ventas == 0
  }

  /** `filter(item => item.ventas > 0)`. */
  function Validas(rows: seq<Fila>): (r: seq<Fila>)
    ensures forall f :: f in r <==> f in rows && f.ventas > 0
    ensures |r| <= |rows|
  {
    if rows == [] then []
    else
      var v := Validas(rows[..|rows| - 1]);
      assert forall f :: f in rows <==> f in rows[..|rows| - 1] || f == rows[|rows| - 1];
      if rows[|rows| - 1].ventas > 0 then v + [rows[|rows| - 1]] else v
  }

  function SumVentas(rows: seq<Fila>): int {
    if rows == [] then 0 else SumVentas(rows[..|rows| - 1]) + rows[|rows| - 1].ventas
  }

  /** `reduce((max, current) => current.ventas > max.ventas ? current : max)`: the first row of most sales. */
  function MejorVenta(rows: seq<Fila>): (m: Fila)
    requires rows != []
    ensures m in rows
    ensures forall f :: f in rows ==> f.ventas <= m.ventas
  {
    if |rows| == 1 then rows[0]
    else
      var m := MejorVenta(rows[..|rows| - 1]);
      assert forall f :: f in rows ==> f in rows[..|rows| - 1] || f == rows[|rows| - 1];
      if rows[|rows| - 1].ventas > m.ventas then rows[|rows| - 1] else m
  }

  /** `reduce((min, current) => current.ventas < min.ventas ? current : min)`: the first row of fewest sales. */
  function PeorVenta(rows: seq<Fila>): (m: Fila)
    requires rows != []
    ensures m in rows
    ensures forall f :: f in rows ==> m.ventas <= f.ventas
  {
    if |rows| == 1 then rows[0]
    else
      var m := PeorVenta(rows[..|rows| - 1]);
      assert forall f :: f in rows ==> f in rows[..|rows| - 1] || f == rows[|rows| - 1];
      if rows[|rows| - 1].ventas < m.ventas then rows[|rows| - 1] else m
  }

  /** The overall trend from the first to the last selling period, with a 10% band counted as stable. */
  function Tendencia(primera: int, ultima: int): (t: (string, int))
    ensures !(primera > 0 && ultima > 0) ==> t == ("Estable", 0)
    ensures primera > 0 && ultima > 0 ==>
      (t.0 == "Creciendo" <==> ultima as real > primera as real * 1.1) &&
      (t.0 == "Decreciendo" <==> ultima as real < primera as real * 0.9) &&
      (t.0 == "Estable" <==> primera as real * 0.9 <= ultima as real <= primera as real * 1.1)
  {
    if primera > 0 && ultima > 0 then
      var crecimientoTotal := CorrelacionUtils.Round(((ultima - primera) as real / primera as real) * 100.0);
      if ultima as real > primera as real * 1.1 then ("Creciendo", crecimientoTotal)
      else if ultima as real < primera as real * 0.9 then ("Decreciendo", crecimientoTotal)
      else ("Estable", crecimientoTotal)
    else ("Estable", 0)
  }

  /**
   * `estadisticas`. When some row has non-zero sales but none has positive
   * sales, `reduce` is called on an empty array without an initial value,
   * which throws a `TypeError`: that is the failure case.
   */
  function CalcularEstadisticas(rows: seq<Fila>): (r: Result<Estadisticas, string>)
    ensures rows == [] || AllZero(rows) ==> r == Success(SinDatos)
    ensures r.Failure? <==> !AllZero(rows) && Validas(rows) == []
    ensures r.Success? && !AllZero(rows) ==>
      r.value.ventaMinima <= r.value.ventaMaxima &&
      (forall f :: f in rows && f.ventas > 0 ==> r.value.ventaMinima <= f.ventas <= r.value.ventaMaxima) &&
      (exists f :: f in rows && f.ventas == r.value.ventaMaxima && f.periodo == r.value.mejorMes) &&
      (exists f :: f in rows && f.ventas == r.value.ventaMinima && f.periodo == r.value.peorMes)
  {
    if |rows| == 0 || AllZero(rows) then Success(SinDatos)
    else
      var ventasValidas := Validas(rows);
      if ventasValidas == [] then Failure("TypeError: Reduce of empty array with no initial value")
      else
        var totalVentas := SumVentas(ventasValidas);
        var promedioMensual := CorrelacionUtils.Round(totalVentas as real / |ventasValidas| as real);
        var mejorVenta := MejorVenta(ventasValidas);
        var peorVenta := PeorVenta(ventasValidas);
        var (tendenciaGeneral, crecimientoTotal) :=
          Tendencia(ventasValidas[0].ventas, ventasValidas[|ventasValidas| - 1].ventas);
        Success(Estadisticas(totalVentas, promedioMensual, mejorVenta.periodo, peorVenta.periodo,
                             tendenciaGeneral, crecimientoTotal, mejorVenta.ventas, peorVenta.ventas))
  }

  /** With no negative sales the figures always exist, and any period with sales makes them real figures. */
  lemma EstadisticasNeverFailWithoutReturns(rows: seq<Fila>)
    requires forall i :: 0 <= i < |rows| ==> rows[i].ventas >= 0
    ensures CalcularEstadisticas(rows).Success?
    ensures !AllZero(rows) ==> CalcularEstadisticas(rows).value.ventaMaxima > 0
  {
    if !AllZero(rows) {
      var i :| 0 <= i < |rows| && rows[i].ventas != 0;
      assert rows[i] in Validas(rows);
    }
  }

  /** A single period that sold a negative amount makes `estadisticas` throw. */
  lemma NegativeOnlyThrows()
    ensures CalcularEstadisticas([Fila("Ene 2025", -1, 0, -1, 1, 2025, None)]).Failure?
  {
    var rows := [Fila("Ene 2025", -1, 0, -1, 1, 2025, None)];
    assert rows[0].ventas != 0;
    assert Validas(rows[..0]) == [];
  }
}
