/**
 * The pure helpers of the data-download coordinator
 * (core/web/src/calculus/DescargaDatos.ts): hashtag ids, the "MM/YY" month
 * key of a post, the date-range label of a month, the empty placeholders,
 * the post totals and the order in which month keys are listed.
 */
module DescargaDatos {
  import opened Wrappers
  import opened Text
  import Months
  import StableSort
  import MenuComponentes

  // ---------------------------------------------------------------------
  // Hashtag ids
  // ---------------------------------------------------------------------

  /** The cleaned hashtag an id starts with: its ASCII letters and digits, lower-cased, cut to 12. */
  function IdPrefix(hashtag: string): (p: string)
    ensures |p| == if |MenuComponentes.HashtagId(hashtag)| < 12 then |MenuComponentes.HashtagId(hashtag)| else 12
    ensures p <= MenuComponentes.HashtagId(hashtag)
    ensures forall i :: 0 <= i < |p| ==> IsLower(p[i]) || IsDigit(p[i])
  {
    Take(MenuComponentes.HashtagId(hashtag), 12)
  }

  /** `generarIdAutomatico`: the cleaned hashtag, `_` and the position of the hashtag. */
  function GenerarIdAutomatico(hashtag: string, index: nat): (id: string)
    ensures Split(id, '_') == [IdPrefix(hashtag), NatToString(index)]
  {
    var p := IdPrefix(hashtag);
    var n := NatToString(index);
    assert '_' !in p by {
      forall i | 0 <= i < |p| ensures p[i] != '_' { }
    }
    NatToStringRoundTrip(index);
    assert '_' !in n by {
      forall i | 0 <= i < |n| ensures n[i] != '_' { assert IsDigit(n[i]); }
    }
    SplitPrefix(p, '_', n);
    SplitNoSep(n, '_');
    p + "_" + n
  }

  /** The position can be read back from an id: the digits after its `_`. */
  lemma IdIndexRoundTrip(hashtag: string, index: nat)
    ensures var parts := Split(GenerarIdAutomatico(hashtag, index), '_');
      |parts| == 2 && AllDigits(parts[1]) && DigitsValue(parts[1]) == index
  {
    NatToStringRoundTrip(index);
  }

  /** Hashtags at different positions get different ids, even when their names clean to the same text. */
  lemma IdsDistinct(h1: string, i1: nat, h2: string, i2: nat)
    requires i1 != i2
    ensures GenerarIdAutomatico(h1, i1) != GenerarIdAutomatico(h2, i2)
  {
    IdIndexRoundTrip(h1, i1);
    IdIndexRoundTrip(h2, i2);
  }

  // ---------------------------------------------------------------------
  // Month keys
  // ---------------------------------------------------------------------

  /**
   * A post's `time` as `new Date(...)` reads it: a calendar year and month
   * (1..12), or an unparseable text.
   */
  datatype PostDate = Valid(year: nat, month: nat) | Invalid

  predicate WellFormedDate(d: PostDate) {
    d.Valid? ==> 1 <= d.month <= 12
  }

  /** `(getMonth() + 1).toString().padStart(2, '0')`. */
  function MonthText(m: nat): (t: string)
    ensures IsNumeral(t) && DigitsValue(t) == m
  {
    NatToStringRoundTrip(m);
    ZeroPaddedValue(NatToString(m), 2);
    PadStart(NatToString(m), 2, '0')
  }

  /** `getFullYear().toString().slice(-2)`. */
  function YearText(y: nat): (t: string)
    ensures IsNumeral(t) && DigitsValue(t) == y % 100
    ensures y >= 10 ==> |t| == 2
  {
    YearTextValue(y);
    LastN(NatToString(y), 2)
  }

  lemma NatToStringLast(n: nat)
    ensures NatToString(n)[|NatToString(n)| - 1] == DigitChar(n % 10)
  {
    if n >= 10 {
      assert NatToString(n) == NatToString(n / 10) + [DigitChar(n % 10)];
    }
  }

  /** The last two decimal digits of `y`. */
  lemma LastTwoDigits(y: nat)
    ensures y % 100 == 10 * ((y / 10) % 10) + y % 10
  {
    var q, r := y / 10, y % 10;
    assert y == 10 * q + r;
    assert q == 10 * (q / 10) + q % 10;
    assert y == 100 * (q / 10) + (10 * (q % 10) + r);
    assert 0 <= 10 * (q % 10) + r < 100;
  }

  lemma TwoDigitsValue(a: nat, b: nat)
    requires a < 10 && b < 10
    ensures AllDigits([DigitChar(a), DigitChar(b)])
    ensures DigitsValue([DigitChar(a), DigitChar(b)]) == 10 * a + b
  {
    var t := [DigitChar(a), DigitChar(b)];
    assert t[..1] == [DigitChar(a)];
    assert t[..1][..0] == [];
    assert DigitsValue(t[..1]) == a;
    assert t[1] as int - '0' as int == b;
  }

  lemma LastTwoChars(y: nat)
    requires y >= 10
    ensures LastN(NatToString(y), 2) == [DigitChar((y / 10) % 10), DigitChar(y % 10)]
  {
    var s := NatToString(y);
    var p := NatToString(y / 10);
    assert s == p + [DigitChar(y % 10)];
    assert |s| >= 2 && s[|s| - 1] == DigitChar(y % 10);
    assert s[|s| - 2] == DigitChar((y / 10) % 10) by {
      assert s[|s| - 2] == p[|p| - 1];
      NatToStringLast(y / 10);
    }
    assert LastN(s, 2) == s[|s| - 2..];
    assert s[|s| - 2..] == [s[|s| - 2], s[|s| - 1]];
  }

  lemma YearTextValue(y: nat)
    ensures var t := LastN(NatToString(y), 2);
      IsNumeral(t) && DigitsValue(t) == y % 100 && (y >= 10 ==> |t| == 2)
  {
    if y >= 10 {
      LastTwoChars(y);
      TwoDigitsValue((y / 10) % 10, y % 10);
      LastTwoDigits(y);
    } else {
      var t := LastN(NatToString(y), 2);
      assert t == [DigitChar(y)];
      assert t[..0] == [];
    }
  }

  lemma NoSlashInDigits(s: string)
    requires AllDigits(s)
    ensures '/' !in s
  {
    forall i | 0 <= i < |s| ensures s[i] != '/' {
      assert IsDigit(s[i]);
    }
  }

  /**
   * `extraerMes`: "MM/YY" for a readable date, and "NaN/aN" for one that is
   * not, which is what the same formatting makes of `NaN`.
   */
  const ClaveInvalida: string := "NaN/aN"

  function ExtraerMes(d: PostDate): (key: string)
    requires WellFormedDate(d)
    ensures d.Invalid? ==> key == ClaveInvalida
    ensures d.Valid? ==> Split(key, '/') == [MonthText(d.month), YearText(d.year)]
  {
    match d
    case Invalid => ClaveInvalida
    case Valid(y, m) =>
      MesSlashAnio(MonthText(m), YearText(y));
      MonthText(m) + "/" + YearText(y)
  }

  /** Two numerals joined by a slash split back into the two numerals. */
  lemma MesSlashAnio(mes: string, anio: string)
    requires AllDigits(mes) && AllDigits(anio)
    ensures Split(mes + "/" + anio, '/') == [mes, anio]
  {
    NoSlashInDigits(mes);
    NoSlashInDigits(anio);
    SplitPrefix(mes, '/', anio);
    SplitNoSep(anio, '/');
  }

  /** A key's month and two-digit year, when it has the "MM/YY" form. */
  function ParseMesKey(key: string): (r: Option<(nat, nat)>)
    ensures r.Some? ==> var parts := Split(key, '/');
      |parts| == 2 && IsNumeral(parts[0]) && IsNumeral(parts[1]) &&
      r.value == (DigitsValue(parts[0]), DigitsValue(parts[1]))
  {
    var parts := Split(key, '/');
    if |parts| == 2 && IsNumeral(parts[0]) && IsNumeral(parts[1])
    then Some((DigitsValue(parts[0]), DigitsValue(parts[1])))
    else None
  }

  /** The key of a readable date gives back its month and the last two digits of its year. */
  lemma MesKeyRoundTrip(y: nat, m: nat)
    requires 1 <= m <= 12
    ensures ParseMesKey(ExtraerMes(Valid(y, m))) == Some((m, y % 100))
  {
  }

  /** Posts share a key only when they share a month and the last two digits of the year. */
  lemma SameKeySameMonth(y1: nat, m1: nat, y2: nat, m2: nat)
    requires 1 <= m1 <= 12 && 1 <= m2 <= 12
    requires ExtraerMes(Valid(y1, m1)) == ExtraerMes(Valid(y2, m2))
    ensures m1 == m2 && y1 % 100 == y2 % 100
  {
    MesKeyRoundTrip(y1, m1);
    MesKeyRoundTrip(y2, m2);
  }

  // ---------------------------------------------------------------------
  // Date-range labels
  // ---------------------------------------------------------------------

  /** `parseInt` of a decimal numeral. */
  lemma {:induction false} DigitsValueConcat(a: string, b: string)
    requires AllDigits(a) && AllDigits(b)
    ensures AllDigits(a + b) && DigitsValue(a + b) == DigitsValue(a) * Pow10(|b|) + DigitsValue(b)
    decreases |b|
  {
    if b == [] {
      assert a + b == a;
    } else {
      var b' := b[..|b| - 1];
      var c := b[|b| - 1] as int - '0' as int;
      DigitsValueConcat(a, b');
      assert (a + b)[..|a + b| - 1] == a + b';
      assert (a + b)[|a + b| - 1] == b[|b| - 1];
      var va, vb' := DigitsValue(a), DigitsValue(b');
      var p := Pow10(|b'|);
      assert DigitsValue(a + b) == (va * p + vb') * 10 + c;
      assert DigitsValue(b) == vb' * 10 + c;
      assert Pow10(|b|) == p * 10;
      ShiftDigit(va, p, vb', c);
    }
  }

  lemma ShiftDigit(va: int, p: int, vb: int, c: int)
    ensures (va * p + vb) * 10 + c == va * (p * 10) + (vb * 10 + c)
  {
  }

  const RangoInvalido: string := "1/NaN/aN - NaN/NaN/aN"

  /**
   * `formatearRangoFecha`: "1/MM/YY - D/MM/YY" where D is the last day of
   * the month in the year 20YY, and the text JavaScript makes of `NaN` for
   * the key of an unreadable date. Keys of any other form are never built
   * and are outside the model (`None`).
   */
  function FormatearRangoFecha(mes: string): (r: Option<string>)
    ensures mes == ClaveInvalida ==> r == Some(RangoInvalido)
  {
    if mes == ClaveInvalida then Some(RangoInvalido)
    else
      var parts := Split(mes, '/');
      if |parts| >= 2 && IsNumeral(parts[0]) && IsNumeral(parts[1]) && 1 <= DigitsValue(parts[0]) <= 12 then
        var mm, aa := parts[0], parts[1];
        assert AllDigits("20");
        DigitsValueConcat("20", aa);
        var ultimoDia := Months.DaysInMonth(DigitsValue("20" + aa), DigitsValue(mm));
        Some("1/" + mm + "/" + aa + " - " + NatToString(ultimoDia) + "/" + mm + "/" + aa)
      else None
  }

  /** Every key `extraerMes` builds gets a label. */
  lemma KeyLabelled(d: PostDate)
    requires WellFormedDate(d)
    ensures FormatearRangoFecha(ExtraerMes(d)).Some?
  {
    if d.Valid? {
      assert Split(ExtraerMes(d), '/') == [MonthText(d.month), YearText(d.year)];
    }
  }

  /**
   * The label of a month with posts: from day 1 to the last day of that
   * month, 28 to 31, 29 exactly for February of a leap year 20YY.
   */
  lemma RangoDeMes(y: nat, m: nat)
    requires 1 <= m <= 12 && y >= 10
    ensures var key := ExtraerMes(Valid(y, m));
      var d := Months.DaysInMonth(2000 + y % 100, m);
      FormatearRangoFecha(key) == Some("1/" + key + " - " + NatToString(d) + "/" + key) &&
      28 <= d <= 31 && (d == 29 <==> m == 2 && Months.LeapYear(2000 + y % 100))
  {
    var mm, aa := MonthText(m), YearText(y);
    var key := ExtraerMes(Valid(y, m));
    assert key == mm + "/" + aa;
    CenturyYear(y);
    var d := Months.DaysInMonth(2000 + y % 100, m);
    assert FormatearRangoFecha(key) == Some("1/" + mm + "/" + aa + " - " + NatToString(d) + "/" + mm + "/" + aa);
    LabelShape(mm, aa, NatToString(d));
  }

  lemma LabelShape(mm: string, aa: string, dd: string)
    ensures "1/" + mm + "/" + aa + " - " + dd + "/" + mm + "/" + aa
         == "1/" + (mm + "/" + aa) + " - " + dd + "/" + (mm + "/" + aa)
  {
  }

  /** `parseInt("20" + aa)` for the two-digit year of a key. */
  lemma CenturyYear(y: nat)
    requires y >= 10
    ensures AllDigits("20" + YearText(y)) && DigitsValue("20" + YearText(y)) == 2000 + y % 100
  {
    var t := YearText(y);
    assert |t| == 2 && DigitsValue(t) == y % 100;
    assert DigitsValue("20") == 20 by {
      assert "20"[..1] == "2";
      assert "2"[..0] == [];
    }
    assert Pow10(2) == 100 by {
      assert Pow10(1) == 10;
    }
    assert AllDigits("20" + t) && DigitsValue("20" + t) == DigitsValue("20") * Pow10(|t|) + DigitsValue(t) by {
      assert AllDigits("20");
      DigitsValueConcat("20", t);
    }
  }

  // ---------------------------------------------------------------------
  // Placeholders for hashtags without posts
  // ---------------------------------------------------------------------

  datatype Plataforma = Instagram | Reddit | X

  /** The series a platform's calculator reads. */
  datatype Campo = Likes | Comentarios | Seguidores | Vistas | Compartidos | UpVotes | Suscriptores | Horas | Repost

  function CamposDe(p: Plataforma): set<Campo> {
    match p
    case Instagram => {Likes, Comentarios, Vistas, Seguidores, Compartidos}
    case Reddit => {UpVotes, Comentarios, Suscriptores, Horas}
    case X => {Likes, Repost, Comentarios, Vistas, Seguidores}
  }

  /** A hashtag's input to a platform calculator: its dates and one series per field. */
  datatype HashtagInput = HashtagInput(hashtag: string, id: string, fechas: seq<string>, series: map<Campo, seq<int>>)

  const FechasDefecto: seq<string> := ["01/01/25 - 31/01/25", "1/02/25 - 28/02/25"]

  /**
   * `crearHashtagVacioInstagram`, `...Reddit`, `...X`: two default dates
   * and, for every field of the platform, a series of two zeros.
   */
  function CrearHashtagVacio(p: Plataforma, hashtag: string, index: nat): (h: HashtagInput)
    ensures h.hashtag == hashtag && h.id == GenerarIdAutomatico(hashtag, index)
    ensures h.fechas == FechasDefecto
    ensures h.series.Keys == CamposDe(p)
    ensures forall c :: c in h.series ==> h.series[c] == [0, 0] && |h.series[c]| == |h.fechas|
  {
    HashtagInput(hashtag, GenerarIdAutomatico(hashtag, index), FechasDefecto,
                 map c | c in CamposDe(p) :: [0, 0])
  }

  /** `transformarParaX`: every hashtag becomes a placeholder. */
  function TransformarParaX(hashtags: seq<string>): (hs: seq<HashtagInput>)
    ensures |hs| == |hashtags|
    ensures forall i :: 0 <= i < |hs| ==> hs[i] == CrearHashtagVacio(X, hashtags[i], i)
  {
    seq(|hashtags|, i requires 0 <= i < |hashtags| => CrearHashtagVacio(X, hashtags[i], i))
  }

  /** The placeholders of one platform carry pairwise different ids. */
  lemma PlaceholderIdsDistinct(hashtags: seq<string>)
    ensures var hs := TransformarParaX(hashtags);
      forall i, j :: 0 <= i < j < |hs| ==> hs[i].id != hs[j].id
  {
    var hs := TransformarParaX(hashtags);
    forall i, j | 0 <= i < j < |hs| ensures hs[i].id != hs[j].id {
      IdsDistinct(hashtags[i], i, hashtags[j], j);
    }
  }

  // ---------------------------------------------------------------------
  // Post totals
  // ---------------------------------------------------------------------

  /** A keyword's group of posts; the API may leave out its post list. */
  datatype Grupo<P> = Grupo(keyword: string, posts: Option<seq<P>>)

  /** `grupos?.reduce((total, grupo) => total + (grupo.posts?.length || 0), 0) || 0`. */
  function TotalGrupos<P>(grupos: Option<seq<Grupo<P>>>): (n: nat)
    ensures grupos.None? ==> n == 0
    ensures grupos.Some? ==> n == |AllPosts(grupos.value)|
  {
    match grupos
    case None => 0
    case Some(gs) => TotalIsPostCount(gs); SumLengths(gs)
  }

  function SumLengths<P>(gs: seq<Grupo<P>>): nat {
    if gs == [] then 0
    else SumLengths(gs[..|gs| - 1]) + |gs[|gs| - 1].posts.GetOr([])|
  }

  /** All the posts of the groups, group after group. */
  function AllPosts<P>(gs: seq<Grupo<P>>): seq<P> {
    if gs == [] then [] else AllPosts(gs[..|gs| - 1]) + gs[|gs| - 1].posts.GetOr([])
  }

  /** The total of a platform is the number of posts over all its groups. */
  lemma {:induction false} TotalIsPostCount<P>(gs: seq<Grupo<P>>)
    ensures SumLengths(gs) == |AllPosts(gs)|
  {
    if gs != [] {
      TotalIsPostCount(gs[..|gs| - 1]);
    }
  }

  /** `totalPosts`: per platform; Twitter's posts come as one list. */
  datatype TotalPosts = TotalPosts(instagram: nat, reddit: nat, twitter: nat)

  function TotalPostsDe<P>(instagram: Option<seq<Grupo<P>>>, reddit: Option<seq<Grupo<P>>>,
                           twitter: Option<seq<P>>): (t: TotalPosts)
    ensures instagram.Some? ==> t.instagram == |AllPosts(instagram.value)|
    ensures reddit.Some? ==> t.reddit == |AllPosts(reddit.value)|
    ensures instagram.None? ==> t.instagram == 0
    ensures reddit.None? ==> t.reddit == 0
    ensures t.twitter == |twitter.GetOr([])|
  {
    TotalPosts(TotalGrupos(instagram), TotalGrupos(reddit), |twitter.GetOr([])|)
  }

  // ---------------------------------------------------------------------
  // The order of month keys
  // ---------------------------------------------------------------------

  /** The order of `Array.prototype.sort` without a comparator on these keys: by character code, a prefix first. */
  predicate LexLe(a: string, b: string)
    decreases |a|
  {
    a == [] || (b != [] && (a[0] < b[0] || (a[0] == b[0] && LexLe(a[1..], b[1..]))))
  }

  lemma {:induction false} LexTotal(a: string, b: string)
    ensures LexLe(a, b) || LexLe(b, a)
    decreases |a|
  {
    if a != [] && b != [] && a[0] == b[0] {
      LexTotal(a[1..], b[1..]);
    }
  }

  ghost predicate LexSorted(s: seq<string>) {
    forall i, j :: 0 <= i && i + 1 == j && j < |s| ==> LexLe(s[i], s[j])
  }

  function InsertLex(x: string, s: seq<string>): (r: seq<string>)
    ensures multiset(r) == multiset(s) + multiset{x}
    ensures |r| == |s| + 1
    ensures r[0] == x || (s != [] && r[0] == s[0])
    ensures LexSorted(s) ==> LexSorted(r)
  {
    if s == [] || LexLe(x, s[0]) then
      assert LexSorted(s) ==> LexSorted([x] + s) by {
        if LexSorted(s) {
          SortedCons(x, s);
        }
      }
      [x] + s
    else
      var t := InsertLex(x, s[1..]);
      assert multiset([s[0]] + t) == multiset(s) + multiset{x} by {
        assert s == [s[0]] + s[1..];
      }
      assert LexSorted(s) ==> LexSorted([s[0]] + t) by {
        if LexSorted(s) {
          LexTotal(x, s[0]);
          SortedTail(s);
          assert s[1..] != [] ==> LexLe(s[0], s[1..][0]);
          SortedCons(s[0], t);
        }
      }
      [s[0]] + t
  }

  lemma SortedTail(s: seq<string>)
    requires s != [] && LexSorted(s)
    ensures LexSorted(s[1..])
  {
    forall i, j | 0 <= i && i + 1 == j && j < |s[1..]| ensures LexLe(s[1..][i], s[1..][j]) {
      assert s[1..][i] == s[i + 1] && s[1..][j] == s[j + 1];
    }
  }

  lemma SortedCons(h: string, t: seq<string>)
    requires LexSorted(t) && (t == [] || LexLe(h, t[0]))
    ensures LexSorted([h] + t)
  {
    var r := [h] + t;
    forall i, j | 0 <= i && i + 1 == j && j < |r| ensures LexLe(r[i], r[j]) {
      if i > 0 {
        assert r[i] == t[i - 1] && r[j] == t[j - 1];
      }
    }
  }

  /** `Array.from(keys).sort()`. */
  function SortLex(s: seq<string>): (r: seq<string>)
    ensures multiset(r) == multiset(s)
    ensures forall x :: x in r <==> x in s
    ensures LexSorted(r)
  {
    if s == [] then []
    else
      assert s == s[..|s| - 1] + [s[|s| - 1]];
      var r := InsertLex(s[|s| - 1], SortLex(s[..|s| - 1]));
      SameElements(r, s);
      r
  }

  lemma SameElements<T>(a: seq<T>, b: seq<T>)
    requires multiset(a) == multiset(b)
    ensures forall x :: x in a <==> x in b
  {
    forall x
      ensures x in a <==> x in b
    {
      assert x in a <==> x in multiset(a);
      assert x in b <==> x in multiset(b);
    }
  }

  /** A key's place in time: two-digit year, then month; an unreadable key after all others. */
  function ChronoKey(key: string): StableSort.Key {
    match ParseMesKey(key)
    case Some((m, a)) => (a, m)
    case None => (100, 13)
  }

  /**
   * The months listed in time order (year, then month), which is what the
   * per-month series are meant to show.
   */
  function MesesCronologicos(keys: seq<string>): (r: seq<string>)
    ensures multiset(r) == multiset(keys)
    ensures StableSort.SortedBy(r, ChronoKey)
  {
    StableSort.SortByPermutes(keys, ChronoKey);
    StableSort.SortBySorted(keys, ChronoKey);
    StableSort.SortBy(keys, ChronoKey)
  }

  /** In that order, the key of an earlier month of a readable date never comes after a later one. */
  lemma CronologicoOrdenaFechas(keys: seq<string>, i: nat, j: nat, y1: nat, m1: nat, y2: nat, m2: nat)
    requires 1 <= m1 <= 12 && 1 <= m2 <= 12
    requires i < j < |keys|
    requires MesesCronologicos(keys)[i] == ExtraerMes(Valid(y1, m1))
    requires MesesCronologicos(keys)[j] == ExtraerMes(Valid(y2, m2))
    ensures y1 % 100 < y2 % 100 || (y1 % 100 == y2 % 100 && m1 <= m2)
  {
    var r := MesesCronologicos(keys);
    assert |r| == |keys| by {
      assert |multiset(r)| == |multiset(keys)|;
    }
    MesKeyRoundTrip(y1, m1);
    MesKeyRoundTrip(y2, m2);
    assert StableSort.KeyLe(ChronoKey(r[i]), ChronoKey(r[j]));
  }

  /** The string order puts "01/25" before "12/24". */
  lemma StringOrderExample()
    ensures SortLex(["12/24", "01/25"]) == ["01/25", "12/24"]
  {
    assert LexLe("01/25", "12/24");
    assert ["12/24", "01/25"][..1] == ["12/24"];
    assert SortLex(["12/24"]) == ["12/24"] by {
      assert ["12/24"][..0] == [];
    }
  }

  /** "12/24" is December 2024 and "01/25" January 2025. */
  lemma KeysOfExample()
    ensures ExtraerMes(Valid(2024, 12)) == "12/24" && ExtraerMes(Valid(2025, 1)) == "01/25"
    ensures ChronoKey("12/24") == (24, 12) && ChronoKey("01/25") == (25, 1)
  {
    assert NatToString(12) == "12";
    assert NatToString(2024) == "2024";
    assert NatToString(1) == "1";
    assert NatToString(2025) == "2025";
    MesKeyRoundTrip(2024, 12);
    MesKeyRoundTrip(2025, 1);
  }

  /**
   * The string order lists January 2025 before December 2024: the month
   * digits are compared before the year digits.
   */
  lemma StringOrderIsNotChronological()
    ensures var sorted := SortLex([ExtraerMes(Valid(2024, 12)), ExtraerMes(Valid(2025, 1))]);
      sorted == [ExtraerMes(Valid(2025, 1)), ExtraerMes(Valid(2024, 12))] &&
      !StableSort.KeyLe(ChronoKey(sorted[0]), ChronoKey(sorted[1]))
  {
    KeysOfExample();
    StringOrderExample();
  }
}
