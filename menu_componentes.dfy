/**
 * The dashboard menu (core/web/src/components/MenuComponentes.tsx): the
 * hashtag selection of the consolidated chart, the rate selection of the
 * breakdown view, the rate ids of a hashtag, the hashtag ids and the merge
 * of the selected series into chart rows.
 */
module MenuComponentes {
  import opened Wrappers
  import opened Text
  import StableSort
  import CorrelacionUtils

  // ---------------------------------------------------------------------
  // Hashtag ids
  // ---------------------------------------------------------------------

  /**
   * `hashtag.replace(/[^a-zA-Z0-9]/g, '').toLowerCase()`: the ASCII letters
   * and digits of the hashtag, lower-cased; the order is stated by
   * `HashtagIdCons`.
   */
  function HashtagId(hashtag: string): (id: string)
    ensures |id| <= |hashtag|
    ensures forall i :: 0 <= i < |id| ==> IsLower(id[i]) || IsDigit(id[i])
    ensures forall c :: c in id <==> exists d :: d in hashtag && IsAlnum(d) && LowerChar(d) == c
  {
    var f := FilterChars(hashtag, IsAlnum);
    assert forall i :: 0 <= i < |f| ==> IsAlnum(f[i]) by {
      forall i | 0 <= i < |f| ensures IsAlnum(f[i]) {
        assert f[i] in f;
      }
    }
    var id := ToLower(f);
    forall c ensures c in id <==> exists d :: d in hashtag && IsAlnum(d) && LowerChar(d) == c {
      if c in id {
        var i :| 0 <= i < |id| && id[i] == c;
        assert f[i] in f;
      }
      if exists d :: d in hashtag && IsAlnum(d) && LowerChar(d) == c {
        var d :| d in hashtag && IsAlnum(d) && LowerChar(d) == c;
        assert d in f;
        var i :| 0 <= i < |f| && f[i] == d;
        assert id[i] == c;
      }
    }
    id
  }

  /** The id is built character by character, in order: a letter or digit is kept lower-cased, anything else dropped. */
  lemma HashtagIdCons(c: char, s: string)
    ensures HashtagId([c] + s) == (if IsAlnum(c) then [LowerChar(c)] else []) + HashtagId(s)
  {
    var t := [c] + s;
    assert t[0] == c && t[1..] == s;
    ToLowerConcat(if IsAlnum(c) then [c] else [], FilterChars(s, IsAlnum));
  }

  /** A name made of lower-case letters and digits is its own id. */
  lemma HashtagIdOfClean(s: string)
    requires forall i :: 0 <= i < |s| ==> IsLower(s[i]) || IsDigit(s[i])
    ensures HashtagId(s) == s
  {
    FilterKeepsAll(s, IsAlnum);
    var l := ToLower(s);
    forall i | 0 <= i < |s| ensures l[i] == s[i] {
      assert !IsUpper(s[i]);
    }
  }

  lemma {:induction false} FilterKeepsAll(s: string, keep: char -> bool)
    requires forall i :: 0 <= i < |s| ==> keep(s[i])
    ensures FilterChars(s, keep) == s
  {
    if s != [] {
      assert keep(s[0]);
      FilterKeepsAll(s[1..], keep);
    }
  }

  /** An id is its own id: normalising twice changes nothing. */
  lemma HashtagIdIdempotent(hashtag: string)
    ensures HashtagId(HashtagId(hashtag)) == HashtagId(hashtag)
  {
    HashtagIdOfClean(HashtagId(hashtag));
  }

  // ---------------------------------------------------------------------
  // The consolidated chart's hashtag selection
  // ---------------------------------------------------------------------

  /** At most three hashtags are selected, none twice. */
  predicate ValidSelection(sel: seq<string>) {
    |sel| <= 3 && Distinct(sel)
  }

  class Consolidacion {
    var seleccionadas: seq<string>

    /** The chart opens with the Instagram hashtag selected. */
    constructor()
      ensures seleccionadas == ["insta"]
      ensures ValidSelection(seleccionadas)
    {
      seleccionadas := ["insta"];
    }

    /**
     * `toggleSeleccion`: a selected hashtag is dropped; any other is appended
     * and only the last three are kept, so the oldest one makes room.
     */
    method ToggleSeleccion(hashtagId: string)
      requires ValidSelection(seleccionadas)
      modifies this
      ensures if hashtagId in old(seleccionadas)
              then seleccionadas == Without(old(seleccionadas), hashtagId)
              else seleccionadas == LastN(old(seleccionadas) + [hashtagId], 3)
      ensures hashtagId !in old(seleccionadas) && |old(seleccionadas)| == 3 ==>
                seleccionadas == old(seleccionadas)[1..] + [hashtagId]
      ensures hashtagId in seleccionadas <==> hashtagId !in old(seleccionadas)
      ensures ValidSelection(seleccionadas)
    {
      var prev := seleccionadas;
      if hashtagId in prev {
        WithoutDistinct(prev, hashtagId);
        seleccionadas := Without(prev, hashtagId);
      } else {
        var next := prev + [hashtagId];
        assert Distinct(next) by {
          forall i, j | 0 <= i < j < |next| ensures next[i] != next[j] {
            if j == |prev| {
              assert next[i] == prev[i];
            } else {
              assert next[i] == prev[i] && next[j] == prev[j];
            }
          }
        }
        var r := LastN(next, 3);
        assert r[|r| - 1] == hashtagId;
        assert Distinct(r) by {
          forall i, j | 0 <= i < j < |r| ensures r[i] != r[j] {
            assert r[i] == next[|next| - |r| + i] && r[j] == next[|next| - |r| + j];
          }
        }
        if |prev| == 3 {
          assert r == prev[1..] + [hashtagId];
        }
        seleccionadas := r;
      }
    }
  }

  /** Selecting a hashtag while fewer than three are selected and deselecting it restores the selection. */
  lemma ToggleTwice(sel: seq<string>, id: string)
    requires |sel| < 3 && id !in sel
    ensures Without(LastN(sel + [id], 3), id) == sel
  {
    assert LastN(sel + [id], 3) == sel + [id];
    AddThenRemove(sel, id);
  }

  // ---------------------------------------------------------------------
  // The breakdown view's rate selection
  // ---------------------------------------------------------------------

  class Menu {
    var tasasSeleccionadas: seq<string>

    /** The view opens with the Instagram interaction rate of "eco" selected. */
    constructor()
      ensures tasasSeleccionadas == ["int_insta_eco"]
    {
      tasasSeleccionadas := ["int_insta_eco"];
    }

    /**
     * `handleTasaToggle`: a selected rate is dropped unless it is the only
     * one left, in which case the selection stays; any other rate is
     * appended.
     */
    method HandleTasaToggle(tasaId: string)
      modifies this
      ensures tasaId !in old(tasasSeleccionadas) ==>
                tasasSeleccionadas == old(tasasSeleccionadas) + [tasaId]
      ensures tasaId in old(tasasSeleccionadas) ==>
                if Without(old(tasasSeleccionadas), tasaId) == []
                then tasasSeleccionadas == old(tasasSeleccionadas)
                else tasasSeleccionadas == Without(old(tasasSeleccionadas), tasaId)
      ensures old(tasasSeleccionadas) != [] ==> tasasSeleccionadas != []
    {
      var prev := tasasSeleccionadas;
      if tasaId in prev {
        var nueva := Without(prev, tasaId);
        if |nueva| == 0 {
          return;
        }
        tasasSeleccionadas := nueva;
      } else {
        tasasSeleccionadas := prev + [tasaId];
      }
    }
  }

  /** Only a selection that holds nothing but the rate itself refuses to drop it. */
  lemma {:induction false} OnlyRateRefused(sel: seq<string>, id: string)
    requires id in sel
    ensures Without(sel, id) == [] <==> forall i :: 0 <= i < |sel| ==> sel[i] == id
  {
    if Without(sel, id) == [] {
      forall i | 0 <= i < |sel| ensures sel[i] == id {
        assert sel[i] in sel;
      }
    } else {
      var w := Without(sel, id);
      assert w[0] in sel && w[0] != id;
    }
  }

  // ---------------------------------------------------------------------
  // The rate ids of a hashtag
  // ---------------------------------------------------------------------

  /** A hashtag as one platform's calculation lists it. */
  datatype PlatformHashtag = PlatformHashtag(nombre: string, id: string)

  /** The three platform results, each of which may lack its hashtag list. */
  datatype SystemData = SystemData(
    insta: Option<seq<PlatformHashtag>>,
    reddit: Option<seq<PlatformHashtag>>,
    x: Option<seq<PlatformHashtag>>)

  /** `hashtags?.find(h => h.nombre === nombre)`: the first hashtag with that name. */
  function FindByNombre(hs: Option<seq<PlatformHashtag>>, nombre: string): (r: Option<PlatformHashtag>)
    ensures r.None? <==> hs.None? || forall i :: 0 <= i < |hs.value| ==> hs.value[i].nombre != nombre
    ensures r.Some? ==> exists i :: 0 <= i < |hs.value| && hs.value[i] == r.value && r.value.nombre == nombre
                                     && forall j :: 0 <= j < i ==> hs.value[j].nombre != nombre
  {
    match hs
    case None => None
    case Some(s) => FindFirst(s, (h: PlatformHashtag) => h.nombre, nombre)
  }

  /** The interaction and virality rate ids of one platform's hashtag. */
  function RatePair(plataforma: string, h: PlatformHashtag): seq<string> {
    ["int_" + plataforma + "_" + h.id, "vir_" + plataforma + "_" + h.id]
  }

  /** An interaction id followed by the virality id of the same rate. */
  predicate IsPair(a: string, b: string) {
    |a| >= 4 && a[..4] == "int_" && b == "vir_" + a[4..]
  }

  /** The ids come two by two, each an interaction and a virality id of one rate. */
  predicate Paired(ids: seq<string>)
    decreases |ids|
  {
    ids == [] || (|ids| >= 2 && IsPair(ids[0], ids[1]) && Paired(ids[2..]))
  }

  lemma RatePairPaired(plataforma: string, h: PlatformHashtag)
    ensures IsPair(RatePair(plataforma, h)[0], RatePair(plataforma, h)[1])
  {
    var a := "int_" + plataforma + "_" + h.id;
    assert a[..4] == "int_";
    assert a[4..] == plataforma + "_" + h.id;
  }

  lemma {:induction false} PairedAppend(ids: seq<string>, plataforma: string, h: PlatformHashtag)
    requires Paired(ids)
    ensures Paired(ids + RatePair(plataforma, h))
    decreases |ids|
  {
    var p := RatePair(plataforma, h);
    if ids == [] {
      RatePairPaired(plataforma, h);
      assert ids + p == p;
      assert p[2..] == [];
    } else {
      PairedAppend(ids[2..], plataforma, h);
      assert (ids + p)[2..] == ids[2..] + p;
    }
  }

  /** The two rate ids of a platform's hashtag when it was found, none otherwise. */
  function PairIf(plataforma: string, h: Option<PlatformHashtag>): seq<string> {
    if h.Some? then RatePair(plataforma, h.value) else []
  }

  /** The number of platforms whose list holds the hashtag. */
  function Found(datos: SystemData, hashtag: string): nat {
    (if FindByNombre(datos.insta, hashtag).Some? then 1 else 0)
    + (if FindByNombre(datos.reddit, hashtag).Some? then 1 else 0)
    + (if FindByNombre(datos.x, hashtag).Some? then 1 else 0)
  }

  /**
   * `obtenerTasasPorHashtag`: for Instagram, Reddit and X in that order, the
   * two rate ids of the platform's hashtag of that name, where there is one.
   */
  method ObtenerTasasPorHashtag(datos: Option<SystemData>, hashtagId: string) returns (ids: seq<string>)
    ensures datos.None? ==> ids == []
    ensures datos.Some? ==> |ids| == 2 * Found(datos.value, hashtagId)
    ensures Paired(ids)
    ensures datos.Some? ==>
              ids == PairIf("insta", FindByNombre(datos.value.insta, hashtagId))
                     + PairIf("reddit", FindByNombre(datos.value.reddit, hashtagId))
                     + PairIf("x", FindByNombre(datos.value.x, hashtagId))
    ensures datos.Some? && FindByNombre(datos.value.insta, hashtagId).Some? ==>
              ids[..2] == RatePair("insta", FindByNombre(datos.value.insta, hashtagId).value)
    ensures datos.Some? && FindByNombre(datos.value.x, hashtagId).Some? ==>
              ids[|ids| - 2..] == RatePair("x", FindByNombre(datos.value.x, hashtagId).value)
  {
    if datos.None? {
      return [];
    }
    var d := datos.value;
    ids := [];
    var insta := FindByNombre(d.insta, hashtagId);
    if insta.Some? {
      PairedAppend(ids, "insta", insta.value);
      ids := ids + RatePair("insta", insta.value);
    }
    var reddit := FindByNombre(d.reddit, hashtagId);
    if reddit.Some? {
      PairedAppend(ids, "reddit", reddit.value);
      ids := ids + RatePair("reddit", reddit.value);
    }
    var x := FindByNombre(d.x, hashtagId);
    if x.Some? {
      PairedAppend(ids, "x", x.value);
      ids := ids + RatePair("x", x.value);
    }
  }

  // ---------------------------------------------------------------------
  // Merging the selected series into chart rows
  // ---------------------------------------------------------------------

  /** One point of a hashtag's interaction series. */
  datatype Point = Point(fecha: string, tasa: real)

  /** A hashtag of the chart: its id and its Instagram interaction series. */
  datatype Series = Series(id: string, interaccion: seq<Point>)

  /** `hashtagsDinamicos.find(h => h.id === id)`: the first series with that id. */
  function FindSeries(hs: seq<Series>, id: string): (r: Option<Series>)
    ensures r.None? <==> forall i :: 0 <= i < |hs| ==> hs[i].id != id
    ensures r.Some? ==> exists i :: 0 <= i < |hs| && hs[i] == r.value && r.value.id == id
                                     && forall j :: 0 <= j < i ==> hs[j].id != id
  {
    FindFirst(hs, (h: Series) => h.id, id)
  }

  /** `interaccion.find(d => d.fecha === fecha)`: the first point of that date. */
  function FindPoint(ps: seq<Point>, fecha: string): (r: Option<Point>)
    ensures r.None? <==> forall i :: 0 <= i < |ps| ==> ps[i].fecha != fecha
    ensures r.Some? ==> exists i :: 0 <= i < |ps| && ps[i] == r.value && r.value.fecha == fecha
                                     && forall j :: 0 <= j < i ==> ps[j].fecha != fecha
  {
    FindFirst(ps, (p: Point) => p.fecha, fecha)
  }

  /** `interaccion.map(d => d.fecha)`. */
  function Fechas(ps: seq<Point>): (r: seq<string>)
    ensures |r| == |ps|
    ensures forall i :: 0 <= i < |ps| ==> r[i] == ps[i].fecha
  {
    if ps == [] then [] else [ps[0].fecha] + Fechas(ps[1..])
  }

  /** The dates of the series of one id, none when no hashtag has that id. */
  function SeriesDates(hs: seq<Series>, id: string): seq<string> {
    match FindSeries(hs, id)
    case None => []
    case Some(h) => Fechas(h.interaccion)
  }

  /** `seleccionadas.flatMap(...)`: the dates of every selected series, in selection order. */
  function AllDates(hs: seq<Series>, sel: seq<string>): (r: seq<string>)
    ensures forall f :: f in r <==> exists k :: 0 <= k < |sel| && f in SeriesDates(hs, sel[k])
  {
    if sel == [] then []
    else
      var rest := AllDates(hs, sel[1..]);
      assert forall f :: f in rest <==> exists k :: 1 <= k < |sel| && f in SeriesDates(hs, sel[k]) by {
        forall f | f in rest ensures exists k :: 1 <= k < |sel| && f in SeriesDates(hs, sel[k]) {
          var k :| 0 <= k < |sel[1..]| && f in SeriesDates(hs, sel[1..][k]);
          assert sel[k + 1] == sel[1..][k];
        }
        forall f | (exists k :: 1 <= k < |sel| && f in SeriesDates(hs, sel[k])) ensures f in rest {
          var k :| 1 <= k < |sel| && f in SeriesDates(hs, sel[k]);
          assert sel[1..][k - 1] == sel[k];
        }
      }
      SeriesDates(hs, sel[0]) + rest
  }

  /** `dato ? dato.tasa : 0`: the rate of the first point of that date in the series of `id`, else 0. */
  function ValueAt(hs: seq<Series>, id: string, fecha: string): real {
    match FindSeries(hs, id)
    case None => 0.0
    case Some(h) =>
      match FindPoint(h.interaccion, fecha)
      case None => 0.0
      case Some(p) => p.tasa
  }

  /** The row of one date: a value for every selected id. */
  function RowAt(hs: seq<Series>, sel: seq<string>, fecha: string): CorrelacionUtils.Row {
    CorrelacionUtils.Row(fecha, map id | id in sel :: ValueAt(hs, id, fecha))
  }

  /** `datosCombinados` before sorting: one row per distinct date. */
  function MergedRows(hs: seq<Series>, sel: seq<string>): (rows: seq<CorrelacionUtils.Row>)
    ensures |rows| == |Dedup(AllDates(hs, sel))|
    ensures forall i :: 0 <= i < |rows| ==> rows[i] == RowAt(hs, sel, Dedup(AllDates(hs, sel))[i])
  {
    var fechas := Dedup(AllDates(hs, sel));
    seq(|fechas|, i requires 0 <= i < |fechas| => RowAt(hs, sel, fechas[i]))
  }

  /**
   * `combinarDatosInteraccion`: no rows without system data; otherwise the
   * merged rows, sorted in place by month.
   */
  method CombinarDatosInteraccion(hayDatos: bool, hs: seq<Series>, sel: seq<string>)
    returns (rows: seq<CorrelacionUtils.Row>)
    ensures !hayDatos ==> rows == []
    ensures hayDatos ==> rows == StableSort.SortBy(MergedRows(hs, sel), CorrelacionUtils.MonthKey)
  {
    if !hayDatos {
      return [];
    }
    var merged := MergedRows(hs, sel);
    var a := new CorrelacionUtils.Row[|merged|](i requires 0 <= i < |merged| => merged[i]);
    assert a[..] == merged;
    CorrelacionUtils.OrdenarPorMes(a);
    rows := a[..];
  }

  /**
   * What the chart receives: one row for each date of any selected series,
   * every date covered, every row holding exactly the selected ids, each
   * with the rate of that series at that date, 0 where the series lacks it,
   * and the rows ordered by month.
   */
  lemma CombinedRows(hs: seq<Series>, sel: seq<string>)
    ensures var rows := StableSort.SortBy(MergedRows(hs, sel), CorrelacionUtils.MonthKey);
      var all := AllDates(hs, sel);
      |rows| == |Dedup(all)| &&
      StableSort.SortedBy(rows, CorrelacionUtils.MonthKey) &&
      (forall f :: f in all ==> exists r :: r in rows && r.fecha == f) &&
      (forall r :: r in rows ==> r.fecha in all && r.values.Keys == set id | id in sel) &&
      (forall r, id :: r in rows && id in sel ==> r.values[id] == ValueAt(hs, id, r.fecha))
  {
    var merged := MergedRows(hs, sel);
    var rows := StableSort.SortBy(merged, CorrelacionUtils.MonthKey);
    StableSort.SortByPermutes(merged, CorrelacionUtils.MonthKey);
    StableSort.SortBySorted(merged, CorrelacionUtils.MonthKey);
    forall r | r in rows
      ensures r.fecha in AllDates(hs, sel) && r.values.Keys == set id | id in sel
      ensures forall id :: id in sel ==> r.values[id] == ValueAt(hs, id, r.fecha)
    {
      MergedRowIn(hs, sel, merged, rows, r);
    }
    forall f | f in AllDates(hs, sel) ensures exists r :: r in rows && r.fecha == f {
      DateCovered(hs, sel, merged, rows, f);
    }
  }

  lemma MergedRowIn(hs: seq<Series>, sel: seq<string>, merged: seq<CorrelacionUtils.Row>,
                    rows: seq<CorrelacionUtils.Row>, r: CorrelacionUtils.Row)
    requires merged == MergedRows(hs, sel) && multiset(rows) == multiset(merged) && r in rows
    ensures r.fecha in AllDates(hs, sel) && r.values.Keys == set id | id in sel
    ensures forall id :: id in sel ==> r.values[id] == ValueAt(hs, id, r.fecha)
  {
    assert r in multiset(rows);
    assert r in merged;
    var i :| 0 <= i < |merged| && merged[i] == r;
    var fechas := Dedup(AllDates(hs, sel));
    assert r == RowAt(hs, sel, fechas[i]);
    assert fechas[i] in fechas;
  }

  lemma DateCovered(hs: seq<Series>, sel: seq<string>, merged: seq<CorrelacionUtils.Row>,
                    rows: seq<CorrelacionUtils.Row>, f: string)
    requires merged == MergedRows(hs, sel) && multiset(rows) == multiset(merged) && f in AllDates(hs, sel)
    ensures exists r :: r in rows && r.fecha == f
  {
    var fechas := Dedup(AllDates(hs, sel));
    assert f in fechas;
    var i :| 0 <= i < |fechas| && fechas[i] == f;
    assert merged[i] in multiset(merged);
    assert merged[i] in rows;
  }

  /** A date a selected series lacks contributes 0, as does an id no hashtag has. */
  lemma MissingIsZero(hs: seq<Series>, id: string, fecha: string)
    ensures FindSeries(hs, id).None? ==> ValueAt(hs, id, fecha) == 0.0
    ensures FindSeries(hs, id).Some? && fecha !in Fechas(FindSeries(hs, id).value.interaccion) ==>
              ValueAt(hs, id, fecha) == 0.0
  {
    match FindSeries(hs, id)
    case None =>
    case Some(h) =>
      if fecha !in Fechas(h.interaccion) {
        assert forall i :: 0 <= i < |h.interaccion| ==> h.interaccion[i].fecha != fecha by {
          forall i | 0 <= i < |h.interaccion| ensures h.interaccion[i].fecha != fecha {
            assert Fechas(h.interaccion)[i] == h.interaccion[i].fecha;
          }
        }
      }
  }
}
