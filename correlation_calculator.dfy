/**
 * The "transparent" correlation between a hashtag and a product's sales
 * (core/web/src/components/correlationCalculator.tsx): `interpretarPearson`,
 * which names the strength and direction of a coefficient, and
 * `calcularCorrelacionTransparente`, which refuses to report a correlation
 * without enough sales or without hashtag metrics, and otherwise sorts the
 * sales in place by (year, month), computes Pearson's coefficient against a
 * synthetic metric series, clamps it to [-1, 1] and grades its confidence by
 * the number of months.
 *
 * The synthetic metric series draws on `Math.random` and `Math.sin` and the
 * coefficient is computed in floating point; both are the parameter
 * `pearson`, which gives the coefficient (possibly `NaN`) for the metrics
 * and the sorted units.
 */
module CorrelationCalculator {
  import opened Wrappers
  import opened Text
  import StableSort
  import CorrelacionUtils
  import VentasCalc

  type Num = CorrelacionUtils.Num

  // ---------------------------------------------------------------------
  // interpretarPearson
  // ---------------------------------------------------------------------

  datatype Interpretacion = Interpretacion(categoria: string, descripcion: string, color: string, emoji: string)

  /** `Math.abs(r) >= t`: false for `NaN`. */
  predicate AbsAtLeast(r: Num, t: real) {
    r.Finite? && (r.v >= t || -r.v >= t)
  }

  /** `r >= 0`: false for `NaN`. */
  predicate NonNegative(r: Num) {
    r.Finite? && r.v >= 0.0
  }

  function Direccion(r: Num): (d: string)
    ensures |d| == 8 && (NonNegative(r) <==> d == "positiva")
  {
    if NonNegative(r) then "positiva" else "negativa"
  }

  const CatMuyFuerte: string := "Muy fuerte "
  const CatFuerte: string := "Fuerte "
  const CatModerada: string := "Moderada "
  const CatDebil: string := "Débil "
  const CatNula: string := "Muy débil/Nula"

  const DescMuyFuerte: string := "Relación muy fuerte entre hashtag y ventas"
  const DescFuerte: string := "Relación fuerte entre hashtag y ventas"
  const DescModerada: string := "Relación moderada entre hashtag y ventas"
  const DescDebil: string := "Relación débil entre hashtag y ventas"
  const DescNula: string := "Relación muy débil o inexistente"

  /** `interpretarPearson`: the strength bucket of `|r|` and, from 0.3 up, the direction of `r`. */
  function InterpretarPearson(r: Num): (i: Interpretacion)
    ensures AbsAtLeast(r, 0.3) ==> |i.categoria| > 8 && i.categoria[|i.categoria| - 8..] == Direccion(r)
    ensures !AbsAtLeast(r, 0.3) ==> i == Interpretacion(CatNula, DescNula, "#6b7280", "🤷")
  {
    var positiva := NonNegative(r);
    var direccion := Direccion(r);
    if AbsAtLeast(r, 0.9) then
      Interpretacion(CatMuyFuerte + direccion, DescMuyFuerte,
                     if positiva then "#16a34a" else "#dc2626", if positiva then "💚" else "💔")
    else if AbsAtLeast(r, 0.7) then
      Interpretacion(CatFuerte + direccion, DescFuerte,
                     if positiva then "#22c55e" else "#e11d48", if positiva then "💪" else "⚠️")
    else if AbsAtLeast(r, 0.5) then
      Interpretacion(CatModerada + direccion, DescModerada,
                     if positiva then "#eab308" else "#f97316", if positiva then "📈" else "📉")
    else if AbsAtLeast(r, 0.3) then
      Interpretacion(CatDebil + direccion, DescDebil,
                     if positiva then "#a3a3a3" else "#737373", "📊")
    else
      Interpretacion(CatNula, DescNula, "#6b7280", "🤷")
  }

  /** The strength an interpretation reports, read back from its description: 0 (none) to 4 (very strong). */
  function Fuerza(i: Interpretacion): nat {
    if i.descripcion == DescMuyFuerte then 4
    else if i.descripcion == DescFuerte then 3
    else if i.descripcion == DescModerada then 2
    else if i.descripcion == DescDebil then 1
    else 0
  }

  /** The strength bucket from the thresholds of the academic scale. */
  function Nivel(a: real): nat {
    if a >= 0.9 then 4 else if a >= 0.7 then 3 else if a >= 0.5 then 2 else if a >= 0.3 then 1 else 0
  }

  /**
   * The reported strength is the bucket of `|r|` on the 0.3/0.5/0.7/0.9
   * scale: it ignores the sign, and it never decreases as `|r|` grows.
   */
  lemma InterpretarPearsonFuerza(r: real)
    ensures Fuerza(InterpretarPearson(CorrelacionUtils.Finite(r))) == Nivel(if r >= 0.0 then r else -r)
  {
  }

  /** `NaN` fails every comparison and is reported as no relation. */
  lemma InterpretarPearsonNaN()
    ensures Fuerza(InterpretarPearson(CorrelacionUtils.NaN)) == 0
  {
  }

  /** A larger coefficient, in absolute value, is never reported as a weaker relation. */
  lemma {:induction false} InterpretarPearsonMonotona(r: real, s: real)
    requires (if r >= 0.0 then r else -r) <= (if s >= 0.0 then s else -s)
    ensures Fuerza(InterpretarPearson(CorrelacionUtils.Finite(r))) <= Fuerza(InterpretarPearson(CorrelacionUtils.Finite(s)))
  {
    var a, b := if r >= 0.0 then r else -r, if s >= 0.0 then s else -s;
    assert Fuerza(InterpretarPearson(CorrelacionUtils.Finite(r))) == Nivel(a) by {
      InterpretarPearsonFuerza(r);
    }
    assert Fuerza(InterpretarPearson(CorrelacionUtils.Finite(s))) == Nivel(b) by {
      InterpretarPearsonFuerza(s);
    }
    assert Nivel(a) <= Nivel(b);
  }

  /**
   * Two coefficients of the same size and opposite signs (from 0.3 up) get
   * the same strength and description with opposite directions and
   * different colours.
   */
  lemma InterpretarPearsonEspejo(r: real)
    requires r > 0.0 && r >= 0.3
    ensures var p := InterpretarPearson(CorrelacionUtils.Finite(r));
      var n := InterpretarPearson(CorrelacionUtils.Finite(-r));
      p.descripcion == n.descripcion && p.color != n.color &&
      p.categoria[|p.categoria| - 8..] == "positiva" && n.categoria[|n.categoria| - 8..] == "negativa"
  {
    assert Direccion(CorrelacionUtils.Finite(r)) == "positiva";
    assert Direccion(CorrelacionUtils.Finite(-r)) == "negativa";
  }

  // ---------------------------------------------------------------------
  // calcularCorrelacionTransparente
  // ---------------------------------------------------------------------

  /** The hashtag's social metrics. */
  datatype Metricas = Metricas(instagramInteraction: real, redditInteraction: real, twitterInteraction: real)

  datatype Confianza = Alta | Media | Baja | Insuficiente

  /** `CorrelacionResult`. */
  datatype CorrelacionResult = CorrelacionResult(
    correlacion: Num, esReal: bool, esEstimacion: bool, mensaje: string, confianza: Confianza,
    interpretacion: Option<Interpretacion>,
    ventasDisponibles: nat, metricsDisponibles: bool, periodoAnalizado: string)

  /** `x.toFixed(3)`: the value rounded to thousandths, halves away from zero, with three decimals. */
  function ToFixed3(x: Num): (s: string)
    ensures x.NaN? <==> s == "NaN"
  {
    match x
    case NaN => "NaN"
    case Finite(v) =>
      var k: nat := CorrelacionUtils.Round(if v < 0.0 then -v * 1000.0 else v * 1000.0);
      (if v < 0.0 then "-" else "") + NatToString(k / 1000) + "." + PadStart(NatToString(k % 1000), 3, '0')
  }

  const MsgPearson: string := "Correlación de Pearson: "
  const MsgAlta: string := " meses de datos"
  const MsgMedia: string := " meses - moderadamente confiable"
  const MsgBaja: string := " meses - baja confiabilidad"
  const MsgInsuficiente: string := "Datos insuficientes para correlación confiable"

  /** The confidence a number of months supports: 12 or more high, 6 or more medium, 3 or more low. */
  function ConfianzaDe(n: nat): Confianza {
    if n >= 12 then Alta else if n >= 6 then Media else if n >= 3 then Baja else Insuficiente
  }

  function Rango(c: Confianza): nat {
    match c
    case Insuficiente => 0
    case Baja => 1
    case Media => 2
    case Alta => 3
  }

  /** More months never lower the confidence, and three months are always enough for some. */
  lemma ConfianzaMonotona(n: nat, m: nat)
    ensures n <= m ==> Rango(ConfianzaDe(n)) <= Rango(ConfianzaDe(m))
    ensures ConfianzaDe(n) == Insuficiente <==> n < 3
  {
  }

  function MensajeDe(n: nat, c: Num): string {
    if n >= 12 then MsgPearson + ToFixed3(c) + " con " + NatToString(n) + MsgAlta
    else if n >= 6 then MsgPearson + ToFixed3(c) + " con " + NatToString(n) + MsgMedia
    else if n >= 3 then MsgPearson + ToFixed3(c) + " con solo " + NatToString(n) + MsgBaja
    else MsgInsuficiente
  }

  function Periodo(n: nat): string {
    NatToString(n) + " mes(es)"
  }

  /** `.map(v => v.units_sold)`. */
  function Units(s: seq<VentasCalc.DatoVenta>): (u: seq<int>)
    ensures |u| == |s| && forall i :: 0 <= i < |s| ==> u[i] == s[i].unitsSold
  {
    seq(|s|, i requires 0 <= i < |s| => s[i].unitsSold)
  }

  /** The units in the order the calculation pairs them with the metrics: by (year, month), stably. */
  function UnitsOrdenadas(s: seq<VentasCalc.DatoVenta>): seq<int> {
    Units(StableSort.SortBy(s, VentasCalc.VentaKey))
  }

  const MsgSinVentas: string := "Sin datos de ventas disponibles para calcular correlación real"
  const MsgPocasVentas: string := " registro(s) de ventas. Se necesitan al menos 3 para correlación confiable"
  const MsgSinMetricas: string := "Sin métricas de hashtag disponibles"

  /** The answer without sales. */
  function SinVentas(metricas: Option<Metricas>): CorrelacionResult {
    CorrelacionResult(CorrelacionUtils.Finite(0.0), false, false,
      MsgSinVentas, Insuficiente, None,
      0, metricas.Some?, "N/A")
  }

  /** The answer with one or two sales. */
  function PocasVentas(n: nat, metricas: Option<Metricas>): CorrelacionResult {
    CorrelacionResult(CorrelacionUtils.Finite(0.0), false, true,
      "Solo " + NatToString(n) + MsgPocasVentas,
      Insuficiente, None, n, metricas.Some?, Periodo(n))
  }

  /** The answer with enough sales but no metrics. */
  function SinMetricas(n: nat): CorrelacionResult {
    CorrelacionResult(CorrelacionUtils.Finite(0.0), false, false,
      MsgSinMetricas, Insuficiente, None, n, false, Periodo(n))
  }

  /** The result of a call, given the metrics (if any), the sales array (if any) and the coefficient the formula yields. */
  function Resultado(metricas: Option<Metricas>, ventas: Option<seq<VentasCalc.DatoVenta>>,
                     pearson: (Metricas, seq<int>) -> Num): CorrelacionResult
  {
    if ventas.None? || |ventas.value| == 0 then SinVentas(metricas)
    else
      var n := |ventas.value|;
      if n < 3 then PocasVentas(n, metricas)
      else if metricas.None? then SinMetricas(n)
      else
        var c := CorrelacionUtils.Clamp(pearson(metricas.value, UnitsOrdenadas(ventas.value)), -1.0, 1.0);
        CorrelacionResult(c, true, false, MensajeDe(n, c), ConfianzaDe(n), Some(InterpretarPearson(c)),
          n, true, Periodo(n))
  }

  /** The result on the path that computes a coefficient. */
  lemma ResultadoReal(metricas: Option<Metricas>, ventas: seq<VentasCalc.DatoVenta>, pearson: (Metricas, seq<int>) -> Num)
    requires |ventas| >= 3 && metricas.Some?
    ensures var c := CorrelacionUtils.Clamp(pearson(metricas.value, UnitsOrdenadas(ventas)), -1.0, 1.0);
      Resultado(metricas, Some(ventas), pearson) ==
        CorrelacionResult(c, true, false, MensajeDe(|ventas|, c), ConfianzaDe(|ventas|), Some(InterpretarPearson(c)),
                          |ventas|, true, Periodo(|ventas|))
  {
  }

  /** The new contents of the sales array: sorted only on the path that computes a coefficient. */
  function Reordenadas(metricas: Option<Metricas>, ventas: seq<VentasCalc.DatoVenta>): seq<VentasCalc.DatoVenta> {
    if |ventas| >= 3 && metricas.Some? then StableSort.SortBy(ventas, VentasCalc.VentaKey) else ventas
  }

  /** `calcularCorrelacionTransparente`; a null array is `null`. */
  method CalcularCorrelacionTransparente(hashtagMetrics: Option<Metricas>, ventasData: array?<VentasCalc.DatoVenta>,
                                         pearson: (Metricas, seq<int>) -> Num)
    returns (r: CorrelacionResult)
    modifies ventasData
    ensures ventasData == null ==> r == Resultado(hashtagMetrics, None, pearson)
    ensures ventasData != null ==> r == Resultado(hashtagMetrics, Some(old(ventasData[..])), pearson)
    ensures ventasData != null ==> ventasData[..] == Reordenadas(hashtagMetrics, old(ventasData[..]))
  {
    if ventasData == null || ventasData.Length == 0 {
      return SinVentas(hashtagMetrics);
    }
    if ventasData.Length < 3 {
      return PocasVentas(ventasData.Length, hashtagMetrics);
    }
    if hashtagMetrics.None? {
      return SinMetricas(ventasData.Length);
    }
    ghost var orig := ventasData[..];
    StableSort.SortInPlace(ventasData, VentasCalc.VentaKey);
    var ventasOrdenadas := Units(ventasData[..]);
    var n := |ventasOrdenadas|;
    var correlacionFinal := CorrelacionUtils.Clamp(pearson(hashtagMetrics.value, ventasOrdenadas), -1.0, 1.0);
    var interpretacion := InterpretarPearson(correlacionFinal);
    var confianza, mensaje := Confiabilidad(n, correlacionFinal);
    assert ventasOrdenadas == UnitsOrdenadas(orig);
    ResultadoReal(hashtagMetrics, orig, pearson);
    r := CorrelacionResult(correlacionFinal, true, false, mensaje, confianza, Some(interpretacion),
                           n, true, Periodo(n));
  }

  /** The confidence tier and the message for `n` months and the coefficient `c`. */
  method Confiabilidad(n: nat, c: Num) returns (confianza: Confianza, mensaje: string)
    ensures confianza == ConfianzaDe(n) && mensaje == MensajeDe(n, c)
  {
    if n >= 12 {
      confianza := Alta;
      mensaje := MsgPearson + ToFixed3(c) + " con " + NatToString(n) + MsgAlta;
    } else if n >= 6 {
      confianza := Media;
      mensaje := MsgPearson + ToFixed3(c) + " con " + NatToString(n) + MsgMedia;
    } else if n >= 3 {
      confianza := Baja;
      mensaje := MsgPearson + ToFixed3(c) + " con solo " + NatToString(n) + MsgBaja;
    } else {
      confianza := Insuficiente;
      mensaje := MsgInsuficiente;
    }
  }

  /**
   * The cases of the result: a correlation is real exactly when there are at
   * least three sales and metrics, and only then does it carry an
   * interpretation, a confidence other than insufficient, and a coefficient
   * other than the placeholder 0, clamped to [-1, 1] unless `NaN`; it is an
   * estimate exactly when there are one or two sales; metrics are reported
   * available exactly when they were given.
   */
  predicate Coherente(r: CorrelacionResult, n: nat, metricas: Option<Metricas>) {
    && r.ventasDisponibles == n
    && r.metricsDisponibles == metricas.Some?
    && (r.esReal <==> n >= 3 && metricas.Some?)
    && (r.esEstimacion <==> 1 <= n < 3)
    && (r.confianza == Insuficiente <==> !r.esReal)
    && (!r.esReal ==> r.correlacion == CorrelacionUtils.Finite(0.0) && r.interpretacion.None?)
    && (r.esReal ==> r.interpretacion == Some(InterpretarPearson(r.correlacion)))
    && (r.esReal && r.correlacion.Finite? ==> -1.0 <= r.correlacion.v <= 1.0)
    && (n == 0 ==> r.periodoAnalizado == "N/A")
  }

  /** Every result is coherent with the number of sales and the presence of metrics. */
  lemma {:induction false} ResultadoCasos(metricas: Option<Metricas>, ventas: Option<seq<VentasCalc.DatoVenta>>,
                                          pearson: (Metricas, seq<int>) -> Num)
    ensures Coherente(Resultado(metricas, ventas, pearson), if ventas.None? then 0 else |ventas.value|, metricas)
  {
    var n := if ventas.None? then 0 else |ventas.value|;
    if n == 0 {
      assert Resultado(metricas, ventas, pearson) == SinVentas(metricas);
    } else if n < 3 {
      assert Resultado(metricas, ventas, pearson) == PocasVentas(n, metricas);
    } else if metricas.None? {
      assert Resultado(metricas, ventas, pearson) == SinMetricas(n);
    } else {
      ResultadoReal(metricas, ventas.value, pearson);
      ConfianzaMonotona(n, 0);
    }
  }

  /**
   * A real correlation pairs the metrics with the sales in chronological
   * order: the units given to the coefficient are the input's units,
   * reordered so that the (year, month) keys never go down.
   */
  lemma UnitsOrdenadasCronologicas(ventas: seq<VentasCalc.DatoVenta>, k: StableSort.Key)
    ensures var s := StableSort.SortBy(ventas, VentasCalc.VentaKey);
      && UnitsOrdenadas(ventas) == Units(s)
      && multiset(s) == multiset(ventas)
      && (forall i, j :: 0 <= i < j < |s| ==> StableSort.KeyLe(VentasCalc.VentaKey(s[i]), VentasCalc.VentaKey(s[j])))
      && StableSort.WithKey(s, VentasCalc.VentaKey, k) == StableSort.WithKey(ventas, VentasCalc.VentaKey, k)
  {
    StableSort.SortBySorted(ventas, VentasCalc.VentaKey);
    StableSort.SortByPermutes(ventas, VentasCalc.VentaKey);
    StableSort.SortByStable(ventas, VentasCalc.VentaKey, k);
  }
}
