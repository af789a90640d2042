/**
 * The dashboard helpers of core/web/src/components/correlacionUtils.tsx: the
 * weighted "correlation" score of a series of rates, the hashtag icon, the
 * in-place ordering of chart rows by month and the two colour palettes.
 */
module CorrelacionUtils {
  import opened Wrappers
  import opened Text
  import Months
  import StableSort

  // ---------------------------------------------------------------------
  // JavaScript numbers
  // ---------------------------------------------------------------------

  /** A JavaScript number as far as these helpers need: a finite value or `NaN`. */
  datatype Num = Finite(v: real) | NaN

  /** `Math.round` on a finite value: the nearest integer, halves rounded up. */
  function Round(x: real): (n: int)
    ensures x - 0.5 < n as real <= x + 0.5
  {
    (x + 0.5).Floor
  }

  /** `Math.min(Math.max(x, lo), hi)`, where `NaN` wins every comparison. */
  function Clamp(x: Num, lo: real, hi: real): (r: Num)
    requires lo <= hi
    ensures x.NaN? <==> r.NaN?
    ensures r.Finite? ==> lo <= r.v <= hi
    ensures x.Finite? && lo <= x.v <= hi ==> r == x
  {
    match x
    case NaN => NaN
    case Finite(v) => Finite(if v < lo then lo else if v > hi then hi else v)
  }

  // ---------------------------------------------------------------------
  // calcularCorrelacion
  // ---------------------------------------------------------------------

  /** `d.tasa || 0`: a missing, null, zero or `NaN` rate counts as 0. */
  function RateOf(tasa: Option<real>): real {
    tasa.GetOr(0.0)
  }

  function Rates(datos: seq<Option<real>>): (t: seq<real>)
    ensures |t| == |datos|
    ensures forall i :: 0 <= i < |datos| ==> t[i] == RateOf(datos[i])
  {
    seq(|datos|, i requires 0 <= i < |datos| => RateOf(datos[i]))
  }

  function Sum(t: seq<real>): real {
    if t == [] then 0.0 else Sum(t[..|t| - 1]) + t[|t| - 1]
  }

  /** The number of positions `i >= 1` where the rate went up from `i - 1`. */
  function Rises(t: seq<real>): (n: nat)
    ensures |t| >= 1 ==> n <= |t| - 1
    ensures |t| <= 1 ==> n == 0
  {
    if |t| < 2 then 0
    else Rises(t[..|t| - 1]) + (if t[|t| - 1] > t[|t| - 2] then 1 else 0)
  }

  /** A series that never goes up has no rises; one that always goes up rises at every step. */
  lemma {:induction false} RisesExtremes(t: seq<real>)
    requires |t| >= 1
    ensures (forall i :: 1 <= i < |t| ==> t[i] <= t[i - 1]) ==> Rises(t) == 0
    ensures (forall i :: 1 <= i < |t| ==> t[i] > t[i - 1]) ==> Rises(t) == |t| - 1
  {
    if |t| >= 2 {
      var p := t[..|t| - 1];
      RisesExtremes(p);
    }
  }

  /** The counting loop: `tendenciaPositiva`. */
  method CountRises(t: seq<real>) returns (n: nat)
    ensures n == Rises(t)
  {
    n := 0;
    if |t| == 0 {
      return;
    }
    for i := 1 to |t|
      invariant n == Rises(t[..i])
    {
      assert t[..i + 1][..i] == t[..i];
      if t[i] > t[i - 1] {
        n := n + 1;
      }
    }
    assert t[..|t|] == t;
  }

  /** `(tendenciaPositiva / (tasas.length - 1)) * 100`: the share of rises among the steps, as a percentage. */
  function TrendFactor(t: seq<real>): (f: real)
    requires |t| >= 2
    ensures 0.0 <= f <= 100.0
  {
    Rises(t) as real / (|t| - 1) as real * 100.0
  }

  /** The average of the rates. */
  function Average(t: seq<real>): real
    requires t != []
  {
    Sum(t) / |t| as real
  }

  /** The score from its two factors: 60% trend, 40% average, rounded and clamped to [45, 95]. */
  function Score(factorTendencia: Num, promedio: real): (r: Num)
    ensures factorTendencia.NaN? <==> r.NaN?
    ensures r.Finite? ==> 45.0 <= r.v <= 95.0 && r.v == r.v.Floor as real
  {
    var factorPromedio := if promedio * 10.0 < 100.0 then promedio * 10.0 else 100.0;
    match factorTendencia
    case NaN => NaN
    case Finite(ft) => Clamp(Finite(Round(ft * 0.6 + factorPromedio * 0.4) as real), 45.0, 95.0)
  }

  /**
   * `calcularCorrelacion` as written: 0 for no input; otherwise the share of
   * rises among the `n - 1` steps, as a percentage, weighed with the average.
   * With exactly one rate the share is 0/0, which is `NaN`, and `NaN`
   * survives the rounding and the clamping.
   */
  method CalcularCorrelacion(datos: Option<seq<Option<real>>>) returns (r: Num)
    ensures datos.None? || datos.value == [] ==> r == Finite(0.0)
    ensures datos.Some? && |datos.value| == 1 ==> r.NaN?
    ensures datos.Some? && |datos.value| >= 2 ==> r.Finite? && 45.0 <= r.v <= 95.0 && r.v == r.v.Floor as real
    ensures datos.Some? && |datos.value| >= 2 ==>
              r == Score(Finite(TrendFactor(Rates(datos.value))), Average(Rates(datos.value)))
  {
    if datos.None? || |datos.value| == 0 {
      return Finite(0.0);
    }
    var tasas := Rates(datos.value);
    var promedio := Sum(tasas) / (|tasas| as real);
    var tendenciaPositiva := CountRises(tasas);
    var factorTendencia := if |tasas| - 1 == 0 then NaN
                           else Finite((tendenciaPositiva as real / (|tasas| - 1) as real) * 100.0);
    r := Score(factorTendencia, promedio);
  }

  /**
   * The score with the single-rate case given a trend factor of 0, which
   * keeps every non-empty input inside [45, 95] as the documentation
   * promises.
   */
  method CalcularCorrelacionCorregida(datos: Option<seq<Option<real>>>) returns (r: Num)
    ensures datos.None? || datos.value == [] ==> r == Finite(0.0)
    ensures datos.Some? && datos.value != [] ==> r.Finite? && 45.0 <= r.v <= 95.0 && r.v == r.v.Floor as real
    ensures datos.Some? && |datos.value| == 1 ==> r == Score(Finite(0.0), RateOf(datos.value[0]))
    ensures datos.Some? && |datos.value| >= 2 ==>
              r == Score(Finite(TrendFactor(Rates(datos.value))), Average(Rates(datos.value)))
  {
    if datos.None? || |datos.value| == 0 {
      return Finite(0.0);
    }
    var tasas := Rates(datos.value);
    var promedio := Sum(tasas) / (|tasas| as real);
    var tendenciaPositiva := CountRises(tasas);
    var factorTendencia := if |tasas| - 1 == 0 then Finite(0.0)
                           else Finite((tendenciaPositiva as real / (|tasas| - 1) as real) * 100.0);
    r := Score(factorTendencia, promedio);
  }

  /**
   * The two ends of the scale: rates that rise at every step with an
   * average of at least 10 score 95, and rates that never rise with an
   * average of at most 0 score 45.
   */
  lemma ScoreExtremes(t: seq<real>)
    requires |t| >= 2
    ensures (forall i :: 1 <= i < |t| ==> t[i] > t[i - 1]) && Average(t) >= 10.0 ==>
              Score(Finite(TrendFactor(t)), Average(t)) == Finite(95.0)
    ensures (forall i :: 1 <= i < |t| ==> t[i] <= t[i - 1]) && Average(t) <= 0.0 ==>
              Score(Finite(TrendFactor(t)), Average(t)) == Finite(45.0)
  {
    RisesExtremes(t);
    if forall i :: 1 <= i < |t| ==> t[i] > t[i - 1] {
      assert TrendFactor(t) == 100.0;
    }
    if forall i :: 1 <= i < |t| ==> t[i] <= t[i - 1] {
      assert TrendFactor(t) == 0.0;
    }
  }

  // ---------------------------------------------------------------------
  // getIconoHashtag
  // ---------------------------------------------------------------------

  /** The five keyword groups of `getIconoHashtag`, tested on the lower-cased name. */
  predicate EcoGroup(l: string) { Contains(l, "eco") || Contains(l, "green") || Contains(l, "verde") }
  predicate RecycleGroup(l: string) { Contains(l, "sustain") || Contains(l, "recicl") || Contains(l, "reciclados") }
  predicate InnovationGroup(l: string) { Contains(l, "material") || Contains(l, "nuevo") || Contains(l, "innovation") }
  predicate FashionGroup(l: string) { Contains(l, "moda") || Contains(l, "fashion") }
  predicate FriendlyGroup(l: string) { Contains(l, "friendly") }

  /** The icon of a hashtag: the first keyword group found in its lower-cased name wins. */
  function IconoHashtag(nombre: string): (icon: string)
    ensures var l := ToLower(nombre);
      icon == "📈" <==>
        !(Contains(l, "eco") || Contains(l, "green") || Contains(l, "verde") ||
          Contains(l, "sustain") || Contains(l, "recicl") || Contains(l, "reciclados") ||
          Contains(l, "material") || Contains(l, "nuevo") || Contains(l, "innovation") ||
          Contains(l, "moda") || Contains(l, "fashion") || Contains(l, "friendly"))
    ensures var l := ToLower(nombre); EcoGroup(l) ==> icon == "🌱"
    ensures var l := ToLower(nombre); !EcoGroup(l) && RecycleGroup(l) ==> icon == "♻️"
    ensures var l := ToLower(nombre);
      !EcoGroup(l) && !RecycleGroup(l) && InnovationGroup(l) ==> icon == "🧪"
    ensures var l := ToLower(nombre);
      !EcoGroup(l) && !RecycleGroup(l) && !InnovationGroup(l) && FashionGroup(l) ==> icon == "👗"
    ensures var l := ToLower(nombre);
      !EcoGroup(l) && !RecycleGroup(l) && !InnovationGroup(l) && !FashionGroup(l) && FriendlyGroup(l) ==> icon == "🌿"
  {
    var l := ToLower(nombre);
    if EcoGroup(l) then "🌱"
    else if RecycleGroup(l) then "♻️"
    else if InnovationGroup(l) then "🧪"
    else if FashionGroup(l) then "👗"
    else if FriendlyGroup(l) then "🌿"
    else "📈"
  }

  lemma {:induction false} ToLowerIdempotent(s: string)
    ensures ToLower(ToLower(s)) == ToLower(s)
  {
    var l := ToLower(s);
    var ll := ToLower(l);
    forall i | 0 <= i < |s| ensures ll[i] == l[i] {
      assert !IsUpper(l[i]);
    }
  }

  /** The icon does not depend on letter case: an already lower-cased name gets the same icon. */
  lemma IconoIgnoresCase(nombre: string)
    ensures IconoHashtag(ToLower(nombre)) == IconoHashtag(nombre)
  {
    ToLowerIdempotent(nombre);
  }

  // ---------------------------------------------------------------------
  // ordenarPorMes
  // ---------------------------------------------------------------------

  /** A chart row: its date label ("Ene 25") and one value per series. */
  datatype Row = Row(fecha: string, values: map<string, real>)

  /** The sort key: the month of the label, 0 for an unknown one. */
  function MonthKey(row: Row): StableSort.Key {
    (Months.MonthNumber(Months.LabelMonth(row.fecha)), 0)
  }

  /** `ordenarPorMes`: sorts the rows in place by month, keeping the order of rows of the same month. */
  method OrdenarPorMes(a: array<Row>)
    modifies a
    ensures a[..] == StableSort.SortBy(old(a[..]), MonthKey)
  {
    StableSort.SortInPlace(a, MonthKey);
  }

  /**
   * The order `OrdenarPorMes` produces: a permutation of the rows, by
   * ascending month, rows of one month in their original order, and rows
   * with an unknown month before all others.
   */
  lemma OrdenarPorMesOrder(rows: seq<Row>, k: StableSort.Key)
    ensures var r := StableSort.SortBy(rows, MonthKey);
      multiset(r) == multiset(rows) &&
      StableSort.SortedBy(r, MonthKey) &&
      StableSort.WithKey(r, MonthKey, k) == StableSort.WithKey(rows, MonthKey, k) &&
      forall i, j :: 0 <= i < j < |r| && MonthKey(r[j]).0 == 0 ==> MonthKey(r[i]).0 == 0
  {
    StableSort.SortByPermutes(rows, MonthKey);
    StableSort.SortBySorted(rows, MonthKey);
    StableSort.SortByStable(rows, MonthKey, k);
  }

  // ---------------------------------------------------------------------
  // Colour palettes
  // ---------------------------------------------------------------------

  function Palette(): seq<string> { ["#16a34a", "#3b82f6", "#94a3b8", "#e91e63", "#8b5cf6"] }
  function NewsPalette(): seq<string> { ["#9333ea", "#f59e0b", "#059669"] }

  /**
   * `colores[index % colores.length]`: JavaScript's `%` keeps the sign of
   * `index`, so a negative index reads outside the array (`undefined`),
   * except at a multiple of the length, where the remainder is `-0` and
   * `colores[-0]` is the first colour.
   */
  function ColorFrom(palette: seq<string>, index: int): (c: Option<string>)
    requires palette != []
    ensures c.Some? <==> index >= 0 || index % |palette| == 0
    ensures c.Some? ==> c == Some(palette[index % |palette|])
  {
    if index >= 0 || index % |palette| == 0 then Some(palette[index % |palette|]) else None
  }

  function GenerarColoresPorIndice(index: int): Option<string> { ColorFrom(Palette(), index) }
  function GenerarColoresNoticias(index: int): Option<string> { ColorFrom(NewsPalette(), index) }

  /** The main palette repeats every 5 indices and the news palette every 3. */
  lemma ColoursCycle(index: nat)
    ensures GenerarColoresPorIndice(index + 5) == GenerarColoresPorIndice(index)
    ensures GenerarColoresNoticias(index + 3) == GenerarColoresNoticias(index)
    ensures GenerarColoresPorIndice(index).Some? && GenerarColoresNoticias(index).Some?
  {
    assert (index + 5) % 5 == index % 5;
    assert (index + 3) % 3 == index % 3;
  }

  /** A negative index has a colour only at a multiple of the palette's length, and then it is the first one. */
  lemma NegativeIndices(k: nat, index: int)
    requires index < 0
    ensures GenerarColoresPorIndice(-5 * k) == Some("#16a34a")
    ensures GenerarColoresNoticias(-3 * k) == Some("#9333ea")
    ensures index % 5 != 0 ==> GenerarColoresPorIndice(index).None?
    ensures index % 3 != 0 ==> GenerarColoresNoticias(index).None?
  {
    assert (-5 * k) % 5 == 0;
    assert (-3 * k) % 3 == 0;
  }
}
