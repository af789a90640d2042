/**
 * The dynamic rate chart of the dashboard
 * (core/web/src/components/dashboard/TasaGraficaDinamica.tsx): `ordenarFechas`,
 * which sorts date labels in place by their month with unknown months
 * last; `datosParaGrafica`, which gathers the dates of every selected rate
 * series into a set, sorts them and builds one chart point per date with a
 * value for every selected rate; and `lineasInfo`, the legend entry (name
 * and colour) of every selected rate.
 *
 * `datosTasas` is a map from rate id to its record; an id the map lacks is
 * `undefined` there.
 */
module TasaGrafica {
  import opened Wrappers
  import opened Text
  import Months
  import StableSort
  import MenuComponentes

  type Point = MenuComponentes.Point

  /** A rate's record: its display name, its colour and its dated values, each of which may be missing. */
  datatype DataTasa = DataTasa(nombre: Option<string>, color: Option<string>, datos: Option<seq<Point>>)

  // ---------------------------------------------------------------------
  // ordenarFechas
  // ---------------------------------------------------------------------

  /** `ordenMeses[mes] || 999`: the rank of a label with an unknown month. */
  const Desconocido: nat := 999

  /** The rank of a date label such as "Feb 25": its month number, or 999. */
  function Orden(fecha: string): (n: nat)
    ensures Months.LabelMonth(fecha) in Months.Abbrevs() ==>
              1 <= n <= 12 && Months.Abbrevs()[n - 1] == Months.LabelMonth(fecha)
    ensures Months.LabelMonth(fecha) !in Months.Abbrevs() ==> n == Desconocido
  {
    var m := Months.MonthNumber(Months.LabelMonth(fecha));
    if m == 0 then Desconocido else m
  }

  function OrdenKey(fecha: string): StableSort.Key {
    (Orden(fecha), 0)
  }

  /** `ordenarFechas`: sorts the labels in place by rank, keeping the order of labels of equal rank. */
  method OrdenarFechas(fechas: array<string>)
    modifies fechas
    ensures fechas[..] == StableSort.SortBy(old(fechas[..]), OrdenKey)
  {
    StableSort.SortInPlace(fechas, OrdenKey);
  }

  /**
   * The order `OrdenarFechas` produces: a permutation of the labels by
   * ascending month, labels of one rank in their original order, and labels
   * of an unknown month after all others.
   */
  lemma OrdenarFechasOrden(fechas: seq<string>, k: StableSort.Key)
    ensures var r := StableSort.SortBy(fechas, OrdenKey);
      && multiset(r) == multiset(fechas)
      && (forall i, j :: 0 <= i < j < |r| ==> Orden(r[i]) <= Orden(r[j]))
      && (forall i, j :: 0 <= i < j < |r| && Orden(r[i]) == Desconocido ==> Orden(r[j]) == Desconocido)
      && StableSort.WithKey(r, OrdenKey, k) == StableSort.WithKey(fechas, OrdenKey, k)
  {
    var r := StableSort.SortBy(fechas, OrdenKey);
    StableSort.SortByPermutes(fechas, OrdenKey);
    StableSort.SortBySorted(fechas, OrdenKey);
    StableSort.SortByStable(fechas, OrdenKey, k);
    forall i, j | 0 <= i < j < |r| ensures Orden(r[i]) <= Orden(r[j]) {
      assert StableSort.KeyLe(OrdenKey(r[i]), OrdenKey(r[j]));
    }
  }

  // ---------------------------------------------------------------------
  // datosParaGrafica
  // ---------------------------------------------------------------------

  /** The dates of the series of one rate: none when the rate or its data is missing. */
  function FechasDe(datosTasas: map<string, DataTasa>, id: string): seq<string> {
    if id in datosTasas && datosTasas[id].datos.Some? then MenuComponentes.Fechas(datosTasas[id].datos.value) else []
  }

  /** The dates of every selected series, in the order the `forEach` loops visit them. */
  function TodasFechas(ids: seq<string>, datosTasas: map<string, DataTasa>): seq<string> {
    if ids == [] then [] else TodasFechas(ids[..|ids| - 1], datosTasas) + FechasDe(datosTasas, ids[|ids| - 1])
  }

  /** Some selected series has the date. */
  predicate EnSeleccion(ids: seq<string>, datosTasas: map<string, DataTasa>, f: string) {
    exists k :: 0 <= k < |ids| && f in FechasDe(datosTasas, ids[k])
  }

  lemma TodasFechasStep(ids: seq<string>, datosTasas: map<string, DataTasa>, k: nat)
    requires k < |ids|
    ensures TodasFechas(ids[..k + 1], datosTasas) == TodasFechas(ids[..k], datosTasas) + FechasDe(datosTasas, ids[k])
  {
    assert ids[..k + 1][..k] == ids[..k];
  }

  /** A date is visited exactly when some selected series has it. */
  lemma {:induction false} TodasFechasIff(ids: seq<string>, datosTasas: map<string, DataTasa>, f: string)
    ensures f in TodasFechas(ids, datosTasas) <==> EnSeleccion(ids, datosTasas, f)
  {
    if ids != [] {
      var n := |ids| - 1;
      var pre := ids[..n];
      TodasFechasIff(pre, datosTasas, f);
      assert TodasFechas(ids, datosTasas) == TodasFechas(pre, datosTasas) + FechasDe(datosTasas, ids[n]);
      if EnSeleccion(pre, datosTasas, f) {
        var k :| 0 <= k < n && f in FechasDe(datosTasas, pre[k]);
        assert pre[k] == ids[k];
      }
      if f in FechasDe(datosTasas, ids[n]) {
        assert EnSeleccion(ids, datosTasas, f);
      }
      if EnSeleccion(ids, datosTasas, f) && f !in FechasDe(datosTasas, ids[n]) {
        var k :| 0 <= k < |ids| && f in FechasDe(datosTasas, ids[k]);
        if k == n {
          assert false;
        }
        assert pre[k] == ids[k];
        assert EnSeleccion(pre, datosTasas, f);
      }
    }
  }

  /** `dataTasa?.datos?.find(d => d.fecha === fecha)`, then its rate, or 0 without one. */
  function Valor(datosTasas: map<string, DataTasa>, id: string, fecha: string): real {
    if id in datosTasas && datosTasas[id].datos.Some? then
      match MenuComponentes.FindPoint(datosTasas[id].datos.value, fecha)
      case None => 0.0
      case Some(p) => p.tasa
    else 0.0
  }

  /** A chart point: its date, its position and the value of every selected rate. */
  datatype PuntoGrafica = PuntoGrafica(fecha: string, orden: nat, valores: map<string, real>)

  /** `fechasOrdenadas.map(...)`: the point of each date. */
  function Combinar(ids: seq<string>, datosTasas: map<string, DataTasa>, fechas: seq<string>): (rows: seq<PuntoGrafica>)
    ensures |rows| == |fechas|
  {
    seq(|fechas|, i requires 0 <= i < |fechas| =>
      PuntoGrafica(fechas[i], i, map id | id in ids :: Valor(datosTasas, id, fechas[i])))
  }

  /** What `datosParaGrafica` yields. */
  function Grafica(ids: seq<string>, datosTasas: map<string, DataTasa>): seq<PuntoGrafica> {
    if ids == [] then []
    else Combinar(ids, datosTasas, StableSort.SortBy(Dedup(TodasFechas(ids, datosTasas)), OrdenKey))
  }

  /** One more element, as a `Set` records it: appended unless already present. */
  lemma DedupSnoc<T(!new)>(s: seq<T>, x: T)
    ensures Dedup(s + [x]) == if x in Dedup(s) then Dedup(s) else Dedup(s) + [x]
  {
    assert (s + [x])[..|s|] == s;
  }

  lemma FechasSnoc(ps: seq<Point>, j: nat)
    requires j < |ps|
    ensures MenuComponentes.Fechas(ps[..j + 1]) == MenuComponentes.Fechas(ps[..j]) + [ps[j].fecha]
  {
    assert MenuComponentes.Fechas(ps[..j + 1]) == MenuComponentes.Fechas(ps[..j]) + [ps[j].fecha];
  }

  /** `dataTasa.datos.forEach(punto => todasFechas.add(punto.fecha))`, the set kept as its entries in insertion order. */
  method AgregarFechas(todasFechas: seq<string>, datos: seq<Point>, ghost antes: seq<string>) returns (r: seq<string>)
    requires todasFechas == Dedup(antes)
    ensures r == Dedup(antes + MenuComponentes.Fechas(datos))
  {
    r := todasFechas;
    assert antes + MenuComponentes.Fechas(datos[..0]) == antes;
    for j := 0 to |datos|
      invariant r == Dedup(antes + MenuComponentes.Fechas(datos[..j]))
    {
      FechasSnoc(datos, j);
      assert antes + MenuComponentes.Fechas(datos[..j + 1]) == (antes + MenuComponentes.Fechas(datos[..j])) + [datos[j].fecha];
      DedupSnoc(antes + MenuComponentes.Fechas(datos[..j]), datos[j].fecha);
      if datos[j].fecha !in r {
        r := r + [datos[j].fecha];
      }
    }
    assert datos[..|datos|] == datos;
  }

  /** `datosParaGrafica`: the set of dates filled series by series, then sorted, then one point per date. */
  method DatosParaGrafica(tasasIds: seq<string>, datosTasas: map<string, DataTasa>) returns (rows: seq<PuntoGrafica>)
    ensures rows == Grafica(tasasIds, datosTasas)
  {
    if |tasasIds| == 0 {
      return [];
    }
    var todasFechas: seq<string> := [];
    for k := 0 to |tasasIds|
      invariant todasFechas == Dedup(TodasFechas(tasasIds[..k], datosTasas))
    {
      var tasaId := tasasIds[k];
      TodasFechasStep(tasasIds, datosTasas, k);
      if tasaId in datosTasas && datosTasas[tasaId].datos.Some? {
        todasFechas := AgregarFechas(todasFechas, datosTasas[tasaId].datos.value, TodasFechas(tasasIds[..k], datosTasas));
      } else {
        assert FechasDe(datosTasas, tasaId) == [];
        assert TodasFechas(tasasIds[..k], datosTasas) + [] == TodasFechas(tasasIds[..k], datosTasas);
      }
    }
    assert tasasIds[..|tasasIds|] == tasasIds;
    var fechas := new string[|todasFechas|](i requires 0 <= i < |todasFechas| => todasFechas[i]);
    assert fechas[..] == todasFechas;
    OrdenarFechas(fechas);
    rows := Combinar(tasasIds, datosTasas, fechas[..]);
  }

  /** The points of a list of dates: the date, its position and a value for exactly the selected ids. */
  lemma CombinarPuntos(ids: seq<string>, datosTasas: map<string, DataTasa>, fechas: seq<string>, i: nat)
    requires i < |fechas|
    ensures var p := Combinar(ids, datosTasas, fechas)[i];
      && p.fecha == fechas[i] && p.orden == i
      && p.valores.Keys == set id | id in ids
      && forall id :: id in ids ==> p.valores[id] == Valor(datosTasas, id, fechas[i])
  {
  }

  /** The sorted dates: each date of a selected series once, by month with unknown months last. */
  lemma {:induction false} FechasOrdenadas(ids: seq<string>, datosTasas: map<string, DataTasa>)
    ensures var s := StableSort.SortBy(Dedup(TodasFechas(ids, datosTasas)), OrdenKey);
      && (forall i, j :: 0 <= i < j < |s| ==> s[i] != s[j])
      && (forall f :: EnSeleccion(ids, datosTasas, f) <==> f in s)
      && (forall i, j :: 0 <= i < j < |s| ==> Orden(s[i]) <= Orden(s[j]))
  {
    var d := Dedup(TodasFechas(ids, datosTasas));
    var s := StableSort.SortBy(d, OrdenKey);
    OrdenarFechasOrden(d, (0, 0));
    forall i, j | 0 <= i < j < |s| ensures s[i] != s[j] {
      DistinctPermutation(d, s, i, j);
    }
    forall f ensures EnSeleccion(ids, datosTasas, f) <==> f in s {
      TodasFechasIff(ids, datosTasas, f);
      assert f in d <==> f in multiset(d);
      assert f in s <==> f in multiset(s);
    }
  }

  /**
   * The dates of the chart points: none without a selected rate; otherwise
   * one point per distinct date of the selected series, every such date
   * covered, ordered by month with unknown months last.
   */
  lemma {:induction false} GraficaFechas(ids: seq<string>, datosTasas: map<string, DataTasa>)
    ensures ids == [] ==> Grafica(ids, datosTasas) == []
    ensures var rows := Grafica(ids, datosTasas);
      && (forall i, j :: 0 <= i < j < |rows| ==> rows[i].fecha != rows[j].fecha)
      && (forall f :: EnSeleccion(ids, datosTasas, f) ==> exists i :: 0 <= i < |rows| && rows[i].fecha == f)
      && (forall i :: 0 <= i < |rows| ==> EnSeleccion(ids, datosTasas, rows[i].fecha))
      && (forall i, j :: 0 <= i < j < |rows| ==> Orden(rows[i].fecha) <= Orden(rows[j].fecha))
  {
    if ids != [] {
      var s := StableSort.SortBy(Dedup(TodasFechas(ids, datosTasas)), OrdenKey);
      var rows := Grafica(ids, datosTasas);
      assert rows == Combinar(ids, datosTasas, s);
      FechasOrdenadas(ids, datosTasas);
      forall i | 0 <= i < |rows| ensures rows[i].fecha == s[i] {
        CombinarPuntos(ids, datosTasas, s, i);
      }
      forall i, j | 0 <= i < j < |rows|
        ensures rows[i].fecha != rows[j].fecha && Orden(rows[i].fecha) <= Orden(rows[j].fecha)
      {
        assert rows[i].fecha == s[i] && rows[j].fecha == s[j];
      }
      forall i | 0 <= i < |rows| ensures EnSeleccion(ids, datosTasas, rows[i].fecha) {
        assert rows[i].fecha == s[i] && s[i] in s;
      }
      forall f | EnSeleccion(ids, datosTasas, f) ensures exists i :: 0 <= i < |rows| && rows[i].fecha == f {
        var i :| 0 <= i < |s| && s[i] == f;
        assert rows[i].fecha == f;
      }
    }
  }

  /**
   * The values of the chart points: each point is numbered by its position
   * and holds exactly the selected ids, each with the rate of that series
   * at the point's date (0 where the series, its data or the date is
   * missing, by `ValorAusente`).
   */
  lemma {:induction false} GraficaValores(ids: seq<string>, datosTasas: map<string, DataTasa>, i: nat)
    requires i < |Grafica(ids, datosTasas)|
    ensures var p := Grafica(ids, datosTasas)[i];
      && p.orden == i && p.valores.Keys == set id | id in ids
      && forall id :: id in ids ==> p.valores[id] == Valor(datosTasas, id, p.fecha)
  {
    var s := StableSort.SortBy(Dedup(TodasFechas(ids, datosTasas)), OrdenKey);
    assert Grafica(ids, datosTasas) == Combinar(ids, datosTasas, s);
    CombinarPuntos(ids, datosTasas, s, i);
  }

  /** A reordering of a list without repeats has no repeats. */
  lemma DistinctPermutation(d: seq<string>, s: seq<string>, i: nat, j: nat)
    requires Distinct(d) && multiset(s) == multiset(d)
    requires i < j < |s|
    ensures s[i] != s[j]
  {
    if s[i] == s[j] {
      var x := s[i];
      assert multiset(s)[x] >= 2 by {
        assert s == s[..i] + [x] + s[i + 1..j] + [x] + s[j + 1..];
      }
      DistinctCount(d, x);
      assert false;
    }
  }

  /** In a list without repeats every element occurs at most once. */
  lemma {:induction false} DistinctCount(d: seq<string>, x: string)
    requires Distinct(d)
    ensures multiset(d)[x] <= 1
  {
    if d != [] {
      var n := |d| - 1;
      assert d == d[..n] + [d[n]];
      assert Distinct(d[..n]);
      DistinctCount(d[..n], x);
      if d[n] == x {
        assert x !in d[..n];
        assert multiset(d[..n])[x] == 0;
      }
    }
  }

  /** A rate the record lacks, whose data is missing or which has no point at that date, contributes 0. */
  lemma ValorAusente(datosTasas: map<string, DataTasa>, id: string, fecha: string)
    ensures id !in datosTasas || datosTasas[id].datos.None? ==> Valor(datosTasas, id, fecha) == 0.0
    ensures id in datosTasas && datosTasas[id].datos.Some? ==>
      (fecha !in MenuComponentes.Fechas(datosTasas[id].datos.value) ==> Valor(datosTasas, id, fecha) == 0.0) &&
      (fecha in MenuComponentes.Fechas(datosTasas[id].datos.value) ==>
         exists p :: p in datosTasas[id].datos.value && p.fecha == fecha && Valor(datosTasas, id, fecha) == p.tasa)
  {
    if id in datosTasas && datosTasas[id].datos.Some? {
      var ps := datosTasas[id].datos.value;
      var fs := MenuComponentes.Fechas(ps);
      if fecha in fs {
        var i :| 0 <= i < |fs| && fs[i] == fecha;
        assert ps[i].fecha == fecha;
      } else {
        forall i | 0 <= i < |ps| ensures ps[i].fecha != fecha {
          assert fs[i] == ps[i].fecha;
        }
      }
    }
  }

  // ---------------------------------------------------------------------
  // lineasInfo
  // ---------------------------------------------------------------------

  /** A legend entry. */
  datatype LineaInfo = LineaInfo(id: string, nombre: string, color: string)

  const ColorSinDatos: string := "#94a3b8"
  const ColorPorDefecto: string := "#3b82f6"

  const Instagram: char := '📸'
  const Reddit: char := '🔴'
  const Twitter: char := '🐦'

  /** `x || d` on a text that may be missing: the empty text is falsy too. */
  function OrElse(x: Option<string>, d: string): (r: string)
    ensures x.Some? && x.value != "" ==> r == x.value
    ensures x.None? || x.value == "" ==> r == d
  {
    if x.Some? && x.value != "" then x.value else d
  }

  /** `nombre.split(e)[0].trim() + ' ' + e`: the text before the first mark, then the mark. */
  function CortarEn(nombre: string, e: char): (r: string)
    ensures |r| >= 2 && r[|r| - 1] == e && r[|r| - 2] == ' '
  {
    Trim(Split(nombre, e)[0]) + [' ', e]
  }

  /** The platform mark the name carries, Instagram first, then Reddit, then Twitter. */
  function MarcarPlataforma(nombre: string): string {
    if Instagram in nombre then CortarEn(nombre, Instagram)
    else if Reddit in nombre then CortarEn(nombre, Reddit)
    else if Twitter in nombre then CortarEn(nombre, Twitter)
    else nombre
  }

  /** The prefix `\w*` matches. */
  function SkipWord(s: string): (r: string)
    ensures |r| <= |s| && r == s[|s| - |r|..]
    ensures r == [] || !IsWordChar(r[0])
  {
    if s != [] && IsWordChar(s[0]) then SkipWord(s[1..]) else s
  }

  /** The prefix `\s*` matches. */
  function SkipSpaces(s: string): (r: string)
    ensures |r| <= |s| && r == s[|s| - |r|..]
    ensures r == [] || !IsSpace(r[0])
  {
    if s != [] && IsSpace(s[0]) then SkipSpaces(s[1..]) else s
  }

  /** `.replace(/#\w+\s*\/g, '')`: every `#` followed by a word, with the word and the blanks after it, removed. */
  function QuitarHashtags(s: string): (r: string)
    ensures |r| <= |s|
    decreases |s|
  {
    if s == [] then []
    else if s[0] == '#' && |s| > 1 && IsWordChar(s[1]) then QuitarHashtags(SkipSpaces(SkipWord(s[1..])))
    else [s[0]] + QuitarHashtags(s[1..])
  }

  /** `.replace(/\s+/g, ' ')`: every run of blanks becomes one space. */
  function ColapsarEspacios(s: string): (r: string)
    ensures |r| <= |s|
    decreases |s|
  {
    if s == [] then []
    else if IsSpace(s[0]) then [' '] + ColapsarEspacios(SkipSpaces(s))
    else [s[0]] + ColapsarEspacios(s[1..])
  }

  /** Blanks are single spaces and never adjacent. */
  predicate EspaciosSimples(s: string) {
    forall i :: 0 <= i < |s| && IsSpace(s[i]) ==> s[i] == ' ' && (i + 1 < |s| ==> !IsSpace(s[i + 1]))
  }

  /** The legend name: the platform mark kept last, hashtags removed, blanks collapsed and trimmed. */
  function Simplificar(nombre: string): (r: string)
    ensures r == [] || (!IsSpace(r[0]) && !IsSpace(r[|r| - 1]))
    ensures EspaciosSimples(r)
  {
    ColapsarEspaciosSimples(QuitarHashtags(MarcarPlataforma(nombre)));
    TrimEspaciosSimples(ColapsarEspacios(QuitarHashtags(MarcarPlataforma(nombre))));
    Trim(ColapsarEspacios(QuitarHashtags(MarcarPlataforma(nombre))))
  }

  /** The legend entry of one rate: the fallback for a rate without a record. */
  function LineaDe(datosTasas: map<string, DataTasa>, id: string): (l: LineaInfo)
    ensures l.id == id
    ensures id !in datosTasas ==> l == LineaInfo(id, id, ColorSinDatos)
    ensures id in datosTasas ==> l.color == OrElse(datosTasas[id].color, ColorPorDefecto)
  {
    if id !in datosTasas then LineaInfo(id, id, ColorSinDatos)
    else
      var dataTasa := datosTasas[id];
      LineaInfo(id, Simplificar(OrElse(dataTasa.nombre, id)), OrElse(dataTasa.color, ColorPorDefecto))
  }

  /** `lineasInfo`: one entry per selected rate, in selection order. */
  function LineasInfo(tasasIds: seq<string>, datosTasas: map<string, DataTasa>): (ls: seq<LineaInfo>)
    ensures |ls| == |tasasIds|
    ensures forall i :: 0 <= i < |ls| ==> ls[i].id == tasasIds[i]
  {
    seq(|tasasIds|, i requires 0 <= i < |tasasIds| => LineaDe(datosTasas, tasasIds[i]))
  }

  // Properties of the name cleaning.

  lemma {:induction false} SkipSpacesEmpties(s: string)
    ensures SkipSpaces(s) == [] <==> Blank(s)
    decreases |s|
  {
    if s != [] && IsSpace(s[0]) {
      SkipSpacesEmpties(s[1..]);
    }
  }

  lemma {:induction false} ColapsarEspaciosSimples(s: string)
    ensures EspaciosSimples(ColapsarEspacios(s))
    ensures ColapsarEspacios(s) != [] && IsSpace(ColapsarEspacios(s)[0]) ==> IsSpace(s[0])
    decreases |s|
  {
    if s != [] {
      if IsSpace(s[0]) {
        var t := SkipSpaces(s);
        assert |t| < |s|;
        ColapsarEspaciosSimples(t);
        assert ColapsarEspacios(s) == [' '] + ColapsarEspacios(t);
        ConsSimples(' ', ColapsarEspacios(t));
      } else {
        ColapsarEspaciosSimples(s[1..]);
        assert ColapsarEspacios(s) == [s[0]] + ColapsarEspacios(s[1..]);
        ConsSimples(s[0], ColapsarEspacios(s[1..]));
      }
    }
  }

  lemma ConsSimples(c: char, t: string)
    requires EspaciosSimples(t)
    requires IsSpace(c) ==> c == ' ' && (t == [] || !IsSpace(t[0]))
    ensures EspaciosSimples([c] + t)
  {
    var r := [c] + t;
    forall i | 0 <= i < |r| && IsSpace(r[i]) ensures r[i] == ' ' && (i + 1 < |r| ==> !IsSpace(r[i + 1])) {
      if i > 0 {
        assert r[i] == t[i - 1];
        if i + 1 < |r| { assert r[i + 1] == t[i]; }
      }
    }
  }

  lemma {:induction false} TrimEspaciosSimples(s: string)
    requires EspaciosSimples(s)
    ensures EspaciosSimples(Trim(s))
    decreases |s|
  {
    if s != [] && IsSpace(s[0]) {
      assert EspaciosSimples(s[1..]) by {
        forall i | 0 <= i < |s[1..]| && IsSpace(s[1..][i]) ensures s[1..][i] == ' ' && (i + 1 < |s[1..]| ==> !IsSpace(s[1..][i + 1])) {
          assert s[1..][i] == s[i + 1];
        }
      }
      TrimEspaciosSimples(s[1..]);
    } else if s != [] && IsSpace(s[|s| - 1]) {
      TrimEspaciosSimples(s[..|s| - 1]);
    }
  }

  /** A character that none of the cleaning steps removes or rewrites. */
  predicate Marca(c: char) {
    !IsSpace(c) && !IsWordChar(c) && c != '#'
  }

  predicate EndsWith(s: string, c: char) {
    s != [] && s[|s| - 1] == c
  }

  lemma {:induction false} SkipKeepsLast(s: string, c: char)
    requires EndsWith(s, c) && Marca(c)
    ensures EndsWith(SkipSpaces(SkipWord(s)), c)
  {
    SkipWordKeepsLast(s, c);
    SkipSpacesKeepsLast(SkipWord(s), c);
  }

  lemma {:induction false} SkipWordKeepsLast(s: string, c: char)
    requires EndsWith(s, c) && Marca(c)
    ensures EndsWith(SkipWord(s), c)
    decreases |s|
  {
    if IsWordChar(s[0]) {
      SkipWordKeepsLast(s[1..], c);
    }
  }

  lemma {:induction false} SkipSpacesKeepsLast(s: string, c: char)
    requires EndsWith(s, c) && Marca(c)
    ensures EndsWith(SkipSpaces(s), c)
    decreases |s|
  {
    if IsSpace(s[0]) {
      SkipSpacesKeepsLast(s[1..], c);
    }
  }

  lemma {:induction false} QuitarHashtagsKeepsLast(s: string, c: char)
    requires EndsWith(s, c) && Marca(c)
    ensures EndsWith(QuitarHashtags(s), c)
    decreases |s|
  {
    if s[0] == '#' && |s| > 1 && IsWordChar(s[1]) {
      SkipKeepsLast(s[1..], c);
      QuitarHashtagsKeepsLast(SkipSpaces(SkipWord(s[1..])), c);
    } else if |s| > 1 {
      QuitarHashtagsKeepsLast(s[1..], c);
    }
  }

  lemma {:induction false} ColapsarKeepsLast(s: string, c: char)
    requires EndsWith(s, c) && Marca(c)
    ensures EndsWith(ColapsarEspacios(s), c)
    decreases |s|
  {
    if IsSpace(s[0]) {
      SkipSpacesKeepsLast(s, c);
      ColapsarKeepsLast(SkipSpaces(s), c);
    } else if |s| > 1 {
      ColapsarKeepsLast(s[1..], c);
    }
  }

  lemma {:induction false} TrimKeepsLast(s: string, c: char)
    requires EndsWith(s, c) && Marca(c)
    ensures EndsWith(Trim(s), c)
    decreases |s|
  {
    if IsSpace(s[0]) {
      TrimKeepsLast(s[1..], c);
    }
  }

  /**
   * A name that carries a platform mark keeps that mark as its last
   * character after the cleaning, the Instagram mark taking precedence over
   * Reddit's and Reddit's over Twitter's.
   */
  lemma SimplificarConservaMarca(nombre: string)
    ensures Instagram in nombre ==> EndsWith(Simplificar(nombre), Instagram)
    ensures Instagram !in nombre && Reddit in nombre ==> EndsWith(Simplificar(nombre), Reddit)
    ensures Instagram !in nombre && Reddit !in nombre && Twitter in nombre ==> EndsWith(Simplificar(nombre), Twitter)
  {
    var m := MarcarPlataforma(nombre);
    if Instagram in nombre || Reddit in nombre || Twitter in nombre {
      var c := m[|m| - 1];
      assert Marca(c);
      QuitarHashtagsKeepsLast(m, c);
      ColapsarKeepsLast(QuitarHashtags(m), c);
      TrimKeepsLast(ColapsarEspacios(QuitarHashtags(m)), c);
    }
  }

  /**
   * The legend: one entry per selected rate, in selection order; a rate
   * without a record is named by its id in the neutral grey; any other
   * takes its own colour or the default blue, and a name with no
   * surrounding blanks and no runs of blanks.
   */
  lemma LineasInfoContenido(tasasIds: seq<string>, datosTasas: map<string, DataTasa>, i: nat)
    requires i < |tasasIds|
    ensures var l := LineasInfo(tasasIds, datosTasas)[i];
      && (tasasIds[i] !in datosTasas ==> l == LineaInfo(tasasIds[i], tasasIds[i], ColorSinDatos))
      && (tasasIds[i] in datosTasas ==>
            l.color == OrElse(datosTasas[tasasIds[i]].color, ColorPorDefecto) &&
            (l.nombre == [] || (!IsSpace(l.nombre[0]) && !IsSpace(l.nombre[|l.nombre| - 1]))) &&
            EspaciosSimples(l.nombre))
  {
  }
}
