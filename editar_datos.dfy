/**
 * The sales-editing page (core/web/src/pages/EditarDatos.tsx): the twelve
 * editable months ending at the current one, the per-month input handler
 * that refuses negative values, the save guard and the filling of the table
 * from the sales already stored.
 */
module EditarDatos {
  import opened Wrappers
  import opened Text

  function MonthNames(): (r: seq<string>)
    ensures |r| == 12
  {
    MonthNameList
  }

  const MonthNameList: seq<string> := ["Enero", "Febrero", "Marzo", "Abril", "Mayo", "Junio",
    "Julio", "Agosto", "Septiembre", "Octubre", "Noviembre", "Diciembre"]

  /** One row of the table: id "YYYY-MM", month name, year and month number 1..12. */
  datatype Mes = Mes(id: string, mes: string, year: int, numeroMes: int)

  /** `${year}-${String(month).padStart(2, "0")}`. */
  function MonthId(year: int, month: int): string {
    IntToString(year) + "-" + PadStart(IntToString(month), 2, '0')
  }

  /** The row of month `m` (0..11) of year `y`. */
  function MesAt(y: int, m: int): (r: Mes)
    requires 0 <= m < 12
    ensures r.year == y && r.numeroMes == m + 1
  {
    Mes(MonthId(y, m + 1), MonthNames()[m], y, m + 1)
  }

  /** The month before month `m` (0..11) of year `y`. */
  function Prev(y: int, m: int): (p: (int, int))
    requires 0 <= m < 12
    ensures 0 <= p.1 < 12
    ensures p.0 * 12 + p.1 == y * 12 + m - 1
  {
    if m == 0 then (y - 1, 11) else (y, m - 1)
  }

  /** The year and month `k` months before month `m` of year `y`. */
  function Back(y: int, m: int, k: nat): (p: (int, int))
    requires 0 <= m < 12
    ensures 0 <= p.1 < 12
    decreases k
  {
    if k == 0 then (y, m) else var q := Back(y, m, k - 1); Prev(q.0, q.1)
  }

  /** Counting back `k` months is subtracting `k` from the month count. */
  lemma {:induction false} BackCount(y: int, m: int, k: nat)
    requires 0 <= m < 12
    ensures Back(y, m, k).0 * 12 + Back(y, m, k).1 == y * 12 + m - k
    decreases k
  {
    if k > 0 {
      BackCount(y, m, k - 1);
    }
  }

  /** The row `k` months before month `m` of year `y`. */
  function MesBack(y: int, m: int, k: nat): Mes
    requires 0 <= m < 12
  {
    var p := Back(y, m, k);
    MesAt(p.0, p.1)
  }

  /** `f(n - 1), ..., f(1), f(0)`. */
  function Countdown<T>(f: nat -> T, n: nat): (r: seq<T>)
    ensures |r| == n
    ensures forall j :: 0 <= j < n ==> r[j] == f(n - 1 - j)
  {
    seq(n, j requires 0 <= j < n => f(n - 1 - j))
  }

  lemma CountdownPrepend<T>(f: nat -> T, n: nat)
    ensures [f(n)] + Countdown(f, n) == Countdown(f, n + 1)
  {
    var l := [f(n)] + Countdown(f, n);
    forall j | 0 <= j < n + 1 ensures l[j] == f(n - j) {
      if j > 0 {
        assert l[j] == Countdown(f, n)[j - 1];
      }
    }
  }

  /** The `n` months ending at month `m` of year `y`, oldest first. */
  function MonthsEnding(y: int, m: int, n: nat): (r: seq<Mes>)
    requires 0 <= m < 12
    ensures |r| == n
  {
    Countdown(k => MesBack(y, m, k), n)
  }

  lemma MonthsEndingAt(y: int, m: int, n: nat, j: nat)
    requires 0 <= m < 12 && j < n
    ensures MonthsEnding(y, m, n)[j] == MesBack(y, m, n - 1 - j)
  {
  }

  lemma MonthsEndingPrepend(y: int, m: int, n: nat)
    requires 0 <= m < 12
    ensures [MesBack(y, m, n)] + MonthsEnding(y, m, n) == MonthsEnding(y, m, n + 1)
  {
    CountdownPrepend(k => MesBack(y, m, k), n);
  }

  /** The twelve months ending at month `mesActual` (0..11) of `year`, oldest first. */
  function MonthsBack(mesActual: int, year: int): (r: seq<Mes>)
    requires 0 <= mesActual < 12
    ensures |r| == 12
  {
    MonthsEnding(year, mesActual, 12)
  }

  /** `b` is the calendar month right after `a`. */
  predicate NextMonth(a: Mes, b: Mes) {
    (a.numeroMes < 12 && b.year == a.year && b.numeroMes == a.numeroMes + 1)
    || (a.numeroMes == 12 && b.year == a.year + 1 && b.numeroMes == 1)
  }

  /** `generarMesesAtras` ends at the current month. */
  lemma MonthsBackEndsNow(mesActual: int, year: int)
    requires 0 <= mesActual < 12
    ensures MonthsBack(mesActual, year)[11].year == year
    ensures MonthsBack(mesActual, year)[11].numeroMes == mesActual + 1
  {
    MonthsEndingAt(year, mesActual, 12, 11);
  }

  /** `generarMesesAtras` starts at the month after the current one, a year earlier. */
  lemma MonthsBackStartsYearAgo(mesActual: int, year: int)
    requires 0 <= mesActual < 12
    ensures mesActual < 11 ==> MonthsBack(mesActual, year)[0].year == year - 1
                               && MonthsBack(mesActual, year)[0].numeroMes == mesActual + 2
    ensures mesActual == 11 ==> MonthsBack(mesActual, year)[0].year == year
                                && MonthsBack(mesActual, year)[0].numeroMes == 1
  {
    MonthsEndingAt(year, mesActual, 12, 0);
    BackCount(year, mesActual, 11);
    var p := Back(year, mesActual, 11);
    if mesActual < 11 {
      assert 12 * (p.0 - year + 1) == mesActual + 1 - p.1;
    } else {
      assert 12 * (p.0 - year) == -p.1;
    }
  }

  lemma PrevNext(y: int, m: int)
    requires 0 <= m < 12
    ensures var p := Prev(y, m); NextMonth(MesAt(p.0, p.1), MesAt(y, m))
  {
  }

  /**
   * `generarMesesAtras` is in calendar order: each month follows the one
   * before it, December being followed by January of the next year.
   */
  lemma MonthsBackAscending(mesActual: int, year: int)
    requires 0 <= mesActual < 12
    ensures forall k :: 0 <= k < 11 ==> NextMonth(MonthsBack(mesActual, year)[k], MonthsBack(mesActual, year)[k + 1])
  {
    forall k | 0 <= k < 11 ensures NextMonth(MonthsBack(mesActual, year)[k], MonthsBack(mesActual, year)[k + 1]) {
      MonthsBackStep(mesActual, year, k);
    }
  }

  lemma MonthsBackStep(mesActual: int, year: int, k: nat)
    requires 0 <= mesActual < 12 && k < 11
    ensures NextMonth(MonthsBack(mesActual, year)[k], MonthsBack(mesActual, year)[k + 1])
  {
    var q := Back(year, mesActual, 10 - k);
    assert MonthsBack(mesActual, year)[k] == MesBack(year, mesActual, 11 - k) by {
      MonthsEndingAt(year, mesActual, 12, k);
    }
    assert MonthsBack(mesActual, year)[k + 1] == MesBack(year, mesActual, 10 - k) by {
      MonthsEndingAt(year, mesActual, 12, k + 1);
    }
    PrevNext(q.0, q.1);
  }

  /** An id whose year and month parts are digit strings reads back as their values. */
  predicate ReadsAs(s: string, y: int, m: int) {
    && |s| >= 4 && s[|s| - 3] == '-'
    && AllDigits(s[..|s| - 3]) && DigitsValue(s[..|s| - 3]) == y
    && AllDigits(s[|s| - 2..]) && DigitsValue(s[|s| - 2..]) == m
  }

  lemma JoinedReadsAs(a: string, p: string, y: int, m: int)
    requires |a| >= 1 && AllDigits(a) && DigitsValue(a) == y
    requires |p| == 2 && AllDigits(p) && DigitsValue(p) == m
    ensures ReadsAs(a + "-" + p, y, m)
  {
    var s := a + "-" + p;
    assert s[..|s| - 3] == a;
    assert s[|s| - 2..] == p;
  }

  /** The id of month `m` (1..12) of a year `y` >= 0 reads back as that year and month. */
  lemma MonthIdDecodes(y: int, m: int)
    requires y >= 0 && 1 <= m <= 12
    ensures ReadsAs(MonthId(y, m), y, m)
  {
    var ms := NatToString(m);
    assert Pow10(2) == 100;
    NatToStringLength(m, 2);
    NatToStringRoundTrip(y);
    NatToStringRoundTrip(m);
    ZeroPaddedValue(ms, 2);
    JoinedReadsAs(NatToString(y), PadStart(ms, 2, '0'), y, m);
  }

  /** Distinct months have distinct ids, so a stored sale fills exactly its own month. */
  lemma MonthIdInjective(y1: int, m1: int, y2: int, m2: int)
    requires y1 >= 0 && 1 <= m1 <= 12 && y2 >= 0 && 1 <= m2 <= 12
    ensures MonthId(y1, m1) == MonthId(y2, m2) ==> y1 == y2 && m1 == m2
  {
    var s1, s2 := MonthId(y1, m1), MonthId(y2, m2);
    MonthIdDecodes(y1, m1);
    MonthIdDecodes(y2, m2);
    if s1 == s2 {
      ReadsAsUnique(s1, y1, m1, y2, m2);
    }
  }

  lemma ReadsAsUnique(s: string, y1: int, m1: int, y2: int, m2: int)
    requires ReadsAs(s, y1, m1) && ReadsAs(s, y2, m2)
    ensures y1 == y2 && m1 == m2
  {
  }

  /** The loop of `generarMesesAtras`: steps back twelve times, prepending each month. */
  method GenerarMesesAtras(mes0: int, year0: int) returns (meses: seq<Mes>)
    requires 0 <= mes0 < 12
    ensures meses == MonthsBack(mes0, year0)
  {
    meses := [];
    var mesActual := mes0;
    var yearActual := year0;
    for i := 0 to 12
      invariant 0 <= mesActual < 12
      invariant (yearActual, mesActual) == Back(year0, mes0, i)
      invariant meses == MonthsEnding(year0, mes0, i)
    {
      var id := MonthId(yearActual, mesActual + 1);
      var mes := Mes(id, MonthNames()[mesActual], yearActual, mesActual + 1);
      assert [mes] + meses == MonthsEnding(year0, mes0, i + 1) by {
        assert mes == MesBack(year0, mes0, i);
        MonthsEndingPrepend(year0, mes0, i);
      }
      meses := [mes] + meses;
      if mesActual == 0 {
        mesActual := 11;
        yearActual := yearActual - 1;
      } else {
        mesActual := mesActual - 1;
      }
    }
  }

  // ---------------------------------------------------------------------
  // Input values
  // ---------------------------------------------------------------------

  /** The text before the first 'e' or 'E' (the mantissa of a number). */
  function Mantissa(v: string): (r: string)
    ensures |r| <= |v| && r == v[..|r|]
    ensures forall k :: 0 <= k < |r| ==> r[k] != 'e' && r[k] != 'E'
  {
    if v == [] || v[0] == 'e' || v[0] == 'E' then [] else [v[0]] + Mantissa(v[1..])
  }

  predicate HasNonZeroDigit(s: string) {
    exists k :: 0 <= k < |s| && '1' <= s[k] <= '9'
  }

  /**
   * `value && Number(value) < 0` for the text of a number input (empty, or
   * an optional '-', digits with an optional fraction, an optional
   * exponent): a '-' followed by a mantissa that is not zero.
   */
  predicate NegativeValue(value: string) {
    |value| >= 2 && value[0] == '-' && HasNonZeroDigit(Mantissa(value[1..]))
  }

  /** Negative amounts, including a fraction and an exponent, are refused. */
  lemma NegativeExamples()
    ensures NegativeValue("-5") && NegativeValue("-0.5") && NegativeValue("-2e3")
  {
    assert Mantissa("5") == "5";
    assert Mantissa("0.5") == "0.5";
    assert Mantissa("2e3") == "2";
  }

  /** The empty field, positive amounts and a negative zero are accepted. */
  lemma NonNegativeExamples()
    ensures !NegativeValue("") && !NegativeValue("7") && !NegativeValue("-0") && !NegativeValue("-0.00")
  {
    assert Mantissa("0") == "0";
    assert Mantissa("0.00") == "0.00";
  }

  // ---------------------------------------------------------------------
  // Loaded sales
  // ---------------------------------------------------------------------

  datatype SaleRow = SaleRow(month: int, year: int, unitsSold: int)

  function RowId(r: SaleRow): string {
    MonthId(r.year, r.month)
  }

  /** The (id, units) pair of each row. */
  function Keyed(rows: seq<SaleRow>): (ps: seq<(string, int)>)
    ensures |ps| == |rows|
    ensures forall i :: 0 <= i < |rows| ==> ps[i] == (RowId(rows[i]), rows[i].unitsSold)
  {
    seq(|rows|, i requires 0 <= i < |rows| => (RowId(rows[i]), rows[i].unitsSold))
  }

  /** Pairs into a map, a later pair overwriting an earlier one with the same key. */
  function Group(ps: seq<(string, int)>): map<string, int> {
    if ps == [] then map[]
    else Group(ps[..|ps| - 1])[ps[|ps| - 1].0 := ps[|ps| - 1].1]
  }

  /** `ventasAgrupadas`: units by month id, a later row overwriting an earlier one. */
  function Grouped(rows: seq<SaleRow>): map<string, int> {
    Group(Keyed(rows))
  }

  /** A key is grouped exactly when some pair has it. */
  lemma {:induction false} GroupKeys(ps: seq<(string, int)>, id: string)
    ensures id in Group(ps) <==> exists i :: 0 <= i < |ps| && ps[i].0 == id
    decreases |ps|
  {
    if ps != [] {
      var p := ps[..|ps| - 1];
      GroupKeys(p, id);
      if exists i :: 0 <= i < |p| && p[i].0 == id {
        var i :| 0 <= i < |p| && p[i].0 == id;
        assert ps[i] == p[i];
      }
      if exists i :: 0 <= i < |ps| && ps[i].0 == id {
        var i :| 0 <= i < |ps| && ps[i].0 == id;
        if i < |p| { assert p[i] == ps[i]; }
      }
    }
  }

  /** The value grouped under a key is that of the last pair with that key. */
  lemma {:induction false} GroupLast(ps: seq<(string, int)>, i: nat)
    requires i < |ps|
    requires forall j :: i < j < |ps| ==> ps[j].0 != ps[i].0
    ensures ps[i].0 in Group(ps) && Group(ps)[ps[i].0] == ps[i].1
    decreases |ps|
  {
    if i < |ps| - 1 {
      GroupLast(ps[..|ps| - 1], i);
    }
  }

  /** A month id is grouped exactly when some stored sale has it. */
  lemma GroupedKeys(rows: seq<SaleRow>, id: string)
    ensures id in Grouped(rows) <==> exists i :: 0 <= i < |rows| && RowId(rows[i]) == id
  {
    GroupKeys(Keyed(rows), id);
    if exists i :: 0 <= i < |rows| && RowId(rows[i]) == id {
      var i :| 0 <= i < |rows| && RowId(rows[i]) == id;
      assert Keyed(rows)[i].0 == id;
    }
  }

  /** The units grouped under a month id are those of the last sale of that month. */
  lemma GroupedLast(rows: seq<SaleRow>, i: nat)
    requires i < |rows|
    requires forall j :: i < j < |rows| ==> RowId(rows[j]) != RowId(rows[i])
    ensures RowId(rows[i]) in Grouped(rows) && Grouped(rows)[RowId(rows[i])] == rows[i].unitsSold
  {
    GroupLast(Keyed(rows), i);
  }

  /** The grouping loop of `cargarVentas`. */
  method GroupSales(rows: seq<SaleRow>) returns (g: map<string, int>)
    ensures g == Grouped(rows)
  {
    g := map[];
    for i := 0 to |rows|
      invariant g == Group(Keyed(rows[..i]))
    {
      assert Keyed(rows[..i + 1])[..i] == Keyed(rows[..i]);
      g := g[RowId(rows[i]) := rows[i].unitsSold];
    }
    assert rows[..|rows|] == rows;
  }

  function Ids(meses: seq<Mes>): set<string> {
    set m | m in meses :: m.id
  }

  /**
   * The table after loading: each month's units as text, "" for a month
   * without a stored sale; nothing else is kept.
   */
  function Filled(meses: seq<Mes>, grouped: map<string, int>): (v: map<string, string>)
    ensures v.Keys == Ids(meses)
    ensures forall id :: id in v ==> v[id] == (if id in grouped then IntToString(grouped[id]) else "")
  {
    map id | id in Ids(meses) :: if id in grouped then IntToString(grouped[id]) else ""
  }

  /** A table entry counts as data when it is present and not empty. */
  predicate Truthy(ventas: map<string, string>, id: string) {
    id in ventas && ventas[id] != ""
  }

  /** `meses.some(mes => ventas[mes.id] && ventas[mes.id] !== "")`. */
  predicate HasData(meses: seq<Mes>, ventas: map<string, string>) {
    exists k :: 0 <= k < |meses| && Truthy(ventas, meses[k].id)
  }

  /**
   * A sale to be posted. The source sends `units_sold: Number(text)`; the
   * model keeps the entered text, whose conversion to a double is not
   * modelled.
   */
  datatype SaleRequest = SaleRequest(id: int, resourceId: int, month: int, year: int, unitsText: string)

  /** One request per month with data, in table order. */
  function SaleRequests(meses: seq<Mes>, ventas: map<string, string>, userId: int, productId: int): (r: seq<SaleRequest>)
    ensures |r| <= |meses|
    ensures forall q :: q in r ==> q.id == userId && q.resourceId == productId && q.unitsText != ""
    ensures forall k :: 0 <= k < |meses| && Truthy(ventas, meses[k].id) ==>
      SaleRequest(userId, productId, meses[k].numeroMes, meses[k].year, ventas[meses[k].id]) in r
    ensures forall q :: q in r ==>
      exists k :: 0 <= k < |meses| && Truthy(ventas, meses[k].id) &&
        q == SaleRequest(userId, productId, meses[k].numeroMes, meses[k].year, ventas[meses[k].id])
  {
    if meses == [] then []
    else
      var m := meses[0];
      var rest := SaleRequests(meses[1..], ventas, userId, productId);
      assert forall k :: 1 <= k < |meses| ==> meses[k] == meses[1..][k - 1];
      assert forall q :: q in rest ==>
        exists k :: 0 <= k < |meses| && Truthy(ventas, meses[k].id) &&
          q == SaleRequest(userId, productId, meses[k].numeroMes, meses[k].year, ventas[meses[k].id]) by {
        forall q | q in rest
          ensures exists k :: (0 <= k < |meses| && Truthy(ventas, meses[k].id) &&
                    q == SaleRequest(userId, productId, meses[k].numeroMes, meses[k].year, ventas[meses[k].id]))
        {
          var j :| 0 <= j < |meses[1..]| && Truthy(ventas, meses[1..][j].id) &&
            q == SaleRequest(userId, productId, meses[1..][j].numeroMes, meses[1..][j].year, ventas[meses[1..][j].id]);
          assert meses[j + 1] == meses[1..][j];
        }
      }
      if Truthy(ventas, m.id) then [SaleRequest(userId, productId, m.numeroMes, m.year, ventas[m.id])] + rest
      else rest
  }

  /**
   * The requests follow the table order: building them for two runs of
   * months one after the other gives the first run's requests, then the
   * second's.
   */
  lemma {:induction false} SaleRequestsInOrder(a: seq<Mes>, b: seq<Mes>, ventas: map<string, string>, userId: int, productId: int)
    ensures SaleRequests(a + b, ventas, userId, productId)
         == SaleRequests(a, ventas, userId, productId) + SaleRequests(b, ventas, userId, productId)
    decreases |a|
  {
    if a == [] {
      assert a + b == b;
    } else {
      assert (a + b)[0] == a[0] && (a + b)[1..] == a[1..] + b;
      SaleRequestsInOrder(a[1..], b, ventas, userId, productId);
    }
  }

  /** Without data no request is built. */
  lemma {:induction false} NoDataNoRequests(meses: seq<Mes>, ventas: map<string, string>, userId: int, productId: int)
    requires !HasData(meses, ventas)
    ensures SaleRequests(meses, ventas, userId, productId) == []
    decreases |meses|
  {
    if meses != [] {
      assert !Truthy(ventas, meses[0].id);
      assert forall k :: 0 <= k < |meses| - 1 ==> meses[1..][k] == meses[k + 1];
      NoDataNoRequests(meses[1..], ventas, userId, productId);
    }
  }

  const NegativeError: string := "No se permiten valores negativos en las ventas"
  const NoDataError: string := "Debes registrar al menos un mes de ventas para continuar"
  const NoProductError: string := "Falta información del producto. Por favor, regresa al paso anterior."

  /** How a save attempt ends before any response arrives. */
  datatype SaveOutcome = NoData | NoUser | NoProduct | Send(requests: seq<SaleRequest>)

  /** The page's state: the months, the table and the error shown. */
  class EditarDatosPage {
    const meses: seq<Mes>
    var ventas: map<string, string>
    var error: Option<string>
    var hasSalesData: bool

    /** Builds the twelve months ending at `mesActual` of `year`, all empty. */
    constructor(mesActual: int, year: int)
      requires 0 <= mesActual < 12
      ensures meses == MonthsBack(mesActual, year)
      ensures ventas == map id | id in Ids(meses) :: ""
      ensures error == None && !hasSalesData
    {
      var ms := GenerarMesesAtras(mesActual, year);
      meses := ms;
      ventas := map id | id in Ids(ms) :: "";
      error := None;
      hasSalesData := false;
    }

    /** `handleChange`: a negative value is refused, anything else is stored. */
    method HandleChange(id: string, value: string)
      modifies this
      ensures NegativeValue(value) ==> ventas == old(ventas) && error == Some(NegativeError)
      ensures !NegativeValue(value) ==> ventas == old(ventas)[id := value] && error == None
      ensures hasSalesData == old(hasSalesData)
    {
      if NegativeValue(value) {
        error := Some(NegativeError);
        return;
      }
      ventas := ventas[id := value];
      error := None;
    }

    /**
     * `handleGuardar` up to sending: the requests for the months with data
     * when there are some and both ids are known.
     */
    method HandleGuardar(userId: Option<int>, productId: Option<int>) returns (outcome: SaveOutcome)
      modifies this
      ensures ventas == old(ventas)
      ensures hasSalesData == HasData(meses, ventas)
      ensures !HasData(meses, ventas) ==> outcome == NoData && error == Some(NoDataError)
      ensures HasData(meses, ventas) && (userId.None? || userId.value == 0) ==> outcome == NoUser && error == old(error)
      ensures HasData(meses, ventas) && userId.Some? && userId.value != 0 && (productId.None? || productId.value == 0) ==>
        outcome == NoProduct && error == Some(NoProductError)
      ensures HasData(meses, ventas) && userId.Some? && userId.value != 0 && productId.Some? && productId.value != 0 ==>
        outcome == Send(SaleRequests(meses, ventas, userId.value, productId.value)) && error == None
    {
      var hasData := false;
      for k := 0 to |meses|
        invariant hasData <==> exists j :: 0 <= j < k && Truthy(ventas, meses[j].id)
      {
        if meses[k].id in ventas && ventas[meses[k].id] != "" {
          hasData := true;
        }
      }
      hasSalesData := hasData;
      if !hasData {
        error := Some(NoDataError);
        return NoData;
      }
      if userId.None? || userId.value == 0 {
        return NoUser;
      }
      if productId.None? || productId.value == 0 {
        error := Some(NoProductError);
        return NoProduct;
      }
      error := None;
      outcome := Send(SaleRequests(meses, ventas, userId.value, productId.value));
    }

    /** `cargarVentas`: refills the table from the stored sales. */
    method CargarVentas(rows: seq<SaleRow>)
      modifies this
      ensures ventas == Filled(meses, Grouped(rows))
      ensures error == old(error) && hasSalesData == old(hasSalesData)
    {
      var grouped := GroupSales(rows);
      ventas := Filled(meses, grouped);
    }
  }

  /**
   * After loading, every month of the table has an entry: the units of the
   * last stored sale of that month, or "" when there is none.
   */
  lemma FilledMeaning(meses: seq<Mes>, rows: seq<SaleRow>, k: nat)
    requires k < |meses|
    ensures var v := Filled(meses, Grouped(rows));
      meses[k].id in v
      && (v[meses[k].id] == "" <==> !exists i :: 0 <= i < |rows| && RowId(rows[i]) == meses[k].id)
  {
    var v := Filled(meses, Grouped(rows));
    assert meses[k].id in Ids(meses);
    GroupedKeys(rows, meses[k].id);
  }
}
