/**
 * The grouping of a hashtag's posts by month in the data-download
 * coordinator (core/web/src/calculus/DescargaDatos.ts): `agruparPostsPorMes`,
 * its per-month sums and maxima, and the per-platform inputs built from it.
 */
module AgruparPosts {
  import opened Wrappers
  import opened Text
  import opened DescargaDatos
  import StableSort

  /** A post as the API returns it; every count may be missing. */
  datatype Post = Post(time: PostDate, likes: Option<int>, comments: Option<int>,
                       followers: Option<int>, vote: Option<int>, members: Option<int>)

  predicate WellFormedPosts(posts: seq<Post>) {
    forall i :: 0 <= i < |posts| ==> WellFormedDate(posts[i].time)
  }

  /** The lists a month collects, one per field. */
  datatype Acumulado = Acumulado(
    likes: seq<int>, comentarios: seq<int>, seguidores: seq<int>, vistas: seq<int>,
    compartidos: seq<int>, upVotes: seq<int>, suscriptores: seq<int>, horas: seq<int>)

  const Vacio: Acumulado := Acumulado([], [], [], [], [], [], [], [])

  /** `Math.floor(likes * 0.05)`, computed exactly. */
  function SharesOf(likes: int): (c: int)
    ensures 20 * c <= likes < 20 * c + 20
  {
    likes / 20
  }

  /**
   * What one post adds to its month: Instagram pushes likes, comments,
   * followers, eight views per like and one share per twenty likes; Reddit
   * pushes votes, comments, members and 24 hours; X pushes nothing.
   */
  function Push(acc: Acumulado, post: Post, p: Plataforma): (r: Acumulado)
    ensures p == X ==> r == acc
  {
    var likes := post.likes.GetOr(0);
    match p
    case Instagram =>
      acc.(likes := acc.likes + [likes],
           comentarios := acc.comentarios + [post.comments.GetOr(0)],
           seguidores := acc.seguidores + [post.followers.GetOr(0)],
           vistas := acc.vistas + [likes * 8],
           compartidos := acc.compartidos + [SharesOf(likes)])
    case Reddit =>
      acc.(upVotes := acc.upVotes + [post.vote.GetOr(0)],
           comentarios := acc.comentarios + [post.comments.GetOr(0)],
           suscriptores := acc.suscriptores + [post.members.GetOr(0)],
           horas := acc.horas + [24])
    case X => acc
  }

  /** The month key of every post, in order. */
  function Keys(posts: seq<Post>): (ks: seq<string>)
    requires WellFormedPosts(posts)
    ensures |ks| == |posts|
    ensures forall i :: 0 <= i < |posts| ==> ks[i] == ExtraerMes(posts[i].time)
  {
    seq(|posts|, i requires 0 <= i < |posts| => ExtraerMes(posts[i].time))
  }

  /** Every key the posts produce has a date-range label. */
  lemma KeysLabelled(posts: seq<Post>)
    requires WellFormedPosts(posts)
    ensures forall k :: k in Keys(posts) ==> FormatearRangoFecha(k).Some?
  {
    var ks := Keys(posts);
    forall k | k in ks
      ensures FormatearRangoFecha(k).Some?
    {
      var i :| 0 <= i < |ks| && ks[i] == k;
      KeyLabelled(posts[i].time);
    }
  }

  /** The keys in the order the `Map` first saw them. */
  function Claves(posts: seq<Post>): (ks: seq<string>)
    requires WellFormedPosts(posts)
    ensures forall k :: k in ks ==> FormatearRangoFecha(k).Some?
  {
    KeysLabelled(posts);
    Dedup(Keys(posts))
  }

  /**
   * The map the `forEach` builds: every month's lists, filled post after
   * post, where `ks[i]` is the month key of `posts[i]`.
   */
  function Group(posts: seq<Post>, ks: seq<string>, p: Plataforma): (g: map<string, Acumulado>)
    requires |ks| == |posts|
    ensures forall k :: k in g <==> k in ks
  {
    if posts == [] then map[]
    else
      var n := |posts| - 1;
      var g := Group(posts[..n], ks[..n], p);
      var k := ks[n];
      g[k := Push(if k in g then g[k] else Vacio, posts[n], p)]
  }

  /** One more post: its month's lists take its values, starting from empty ones for a new month. */
  lemma GroupStep(posts: seq<Post>, ks: seq<string>, i: nat, p: Plataforma)
    requires |ks| == |posts| && i < |posts|
    ensures var g := Group(posts[..i], ks[..i], p);
      Group(posts[..i + 1], ks[..i + 1], p) == g[ks[i] := Push(if ks[i] in g then g[ks[i]] else Vacio, posts[i], p)]
  {
    assert posts[..i + 1][..i] == posts[..i];
    assert ks[..i + 1][..i] == ks[..i];
  }

  /** One more post adds its key to the distinct keys when the map has not seen it. */
  lemma DedupStep(posts: seq<Post>, ks: seq<string>, i: nat, p: Plataforma)
    requires |ks| == |posts| && i < |posts|
    ensures Dedup(ks[..i + 1]) == if ks[i] in Group(posts[..i], ks[..i], p) then Dedup(ks[..i])
                                  else Dedup(ks[..i]) + [ks[i]]
  {
    assert ks[..i + 1][..i] == ks[..i];
  }

  /** The result of `agruparPostsPorMes`: the month labels and one series per field. */
  datatype Agrupado = Agrupado(
    fechas: seq<string>, likes: seq<int>, comentarios: seq<int>, seguidores: seq<int>,
    vistas: seq<int>, compartidos: seq<int>, upVotes: seq<int>, suscriptores: seq<int>, horas: seq<int>)

  function Valores(datos: map<string, Acumulado>, mes: string, campo: Campo): seq<int> {
    if mes !in datos then []
    else
      var a := datos[mes];
      match campo
      case Likes => a.likes
      case Comentarios => a.comentarios
      case Seguidores => a.seguidores
      case Vistas => a.vistas
      case Compartidos => a.compartidos
      case UpVotes => a.upVotes
      case Suscriptores => a.suscriptores
      case Horas => a.horas
      case Repost => []
  }

  function Sum(s: seq<int>): int {
    if s == [] then 0 else Sum(s[..|s| - 1]) + s[|s| - 1]
  }

  function Max(s: seq<int>): (m: int)
    requires s != []
    ensures m in s
    ensures forall x :: x in s ==> x <= m
  {
    if |s| == 1 then s[0]
    else
      var m := Max(s[..|s| - 1]);
      assert forall x :: x in s ==> x in s[..|s| - 1] || x == s[|s| - 1];
      if s[|s| - 1] > m then s[|s| - 1] else m
  }

  /** `sumarPorMes`: each month's total of the field. */
  function SumarPorMes(meses: seq<string>, datos: map<string, Acumulado>, campo: Campo): (r: seq<int>)
    ensures |r| == |meses|
    ensures forall i :: 0 <= i < |meses| ==> r[i] == Sum(Valores(datos, meses[i], campo))
  {
    seq(|meses|, i requires 0 <= i < |meses| => Sum(Valores(datos, meses[i], campo)))
  }

  /** `maxPorMes`: each month's largest value of the field, 0 for a month without values. */
  function MaxPorMes(meses: seq<string>, datos: map<string, Acumulado>, campo: Campo): (r: seq<int>)
    ensures |r| == |meses|
    ensures forall i :: 0 <= i < |meses| && Valores(datos, meses[i], campo) == [] ==> r[i] == 0
    ensures forall i :: 0 <= i < |meses| && Valores(datos, meses[i], campo) != [] ==>
              r[i] in Valores(datos, meses[i], campo) &&
              forall x :: x in Valores(datos, meses[i], campo) ==> x <= r[i]
  {
    seq(|meses|, i requires 0 <= i < |meses| =>
      var vs := Valores(datos, meses[i], campo);
      if |vs| > 0 then Max(vs) else 0)
  }

  /** Every series has one value per date label. */
  predicate Aligned(a: Agrupado) {
    |a.likes| == |a.comentarios| == |a.seguidores| == |a.vistas| == |a.fechas| &&
    |a.compartidos| == |a.upVotes| == |a.suscriptores| == |a.horas| == |a.fechas|
  }

  /** The series of the sorted months. */
  function Resumen(meses: seq<string>, datos: map<string, Acumulado>): (r: Agrupado)
    requires forall k :: k in meses ==> FormatearRangoFecha(k).Some?
    ensures Aligned(r) && |r.fechas| == |meses|
    ensures forall i :: 0 <= i < |meses| ==> Some(r.fechas[i]) == FormatearRangoFecha(meses[i])
  {
    Agrupado(
      seq(|meses|, i requires 0 <= i < |meses| => FormatearRangoFecha(meses[i]).value),
      SumarPorMes(meses, datos, Likes), SumarPorMes(meses, datos, Comentarios),
      SumarPorMes(meses, datos, Seguidores), SumarPorMes(meses, datos, Vistas),
      SumarPorMes(meses, datos, Compartidos), SumarPorMes(meses, datos, UpVotes),
      MaxPorMes(meses, datos, Suscriptores), SumarPorMes(meses, datos, Horas))
  }

  /** What `agruparPostsPorMes` returns, as a function of the posts. */
  function Agrupar(posts: seq<Post>, p: Plataforma): Agrupado
    requires WellFormedPosts(posts)
  {
    Resumen(SortLex(Claves(posts)), Group(posts, Keys(posts), p))
  }

  /**
   * `agruparPostsPorMes`: the posts' lists by month key, then the keys in
   * string order with their labels, sums and subscriber maxima.
   */
  method AgruparPostsPorMes(posts: seq<Post>, plataforma: Plataforma) returns (r: Agrupado)
    requires WellFormedPosts(posts)
    ensures r == Agrupar(posts, plataforma)
  {
    ghost var ks := Keys(posts);
    KeysLabelled(posts);
    var datosPorMes: map<string, Acumulado> := map[];
    var claves: seq<string> := [];
    for i := 0 to |posts|
      invariant datosPorMes == Group(posts[..i], ks[..i], plataforma)
      invariant claves == Dedup(ks[..i])
    {
      var post := posts[i];
      var fechaMes := ExtraerMes(post.time);
      GroupStep(posts, ks, i, plataforma);
      DedupStep(posts, ks, i, plataforma);
      if fechaMes !in datosPorMes {
        claves := claves + [fechaMes];
      }
      var datos := if fechaMes in datosPorMes then datosPorMes[fechaMes] else Vacio;
      datosPorMes := datosPorMes[fechaMes := Push(datos, post, plataforma)];
    }
    assert posts[..|posts|] == posts && ks[..|ks|] == ks;
    var mesesOrdenados := SortLex(claves);
    r := Resumen(mesesOrdenados, datosPorMes);
  }

  // ---------------------------------------------------------------------
  // What a month collects
  // ---------------------------------------------------------------------

  /** The posts whose month key is `k`, in their original order. */
  function OfMonth(posts: seq<Post>, ks: seq<string>, k: string): seq<Post>
    requires |ks| == |posts|
  {
    if posts == [] then []
    else
      var n := |posts| - 1;
      var pre := OfMonth(posts[..n], ks[..n], k);
      if ks[n] == k then pre + [posts[n]] else pre
  }

  /** The lists after pushing the posts one after the other. */
  function PushAll(acc: Acumulado, posts: seq<Post>, p: Plataforma): Acumulado {
    if posts == [] then acc
    else Push(PushAll(acc, posts[..|posts| - 1], p), posts[|posts| - 1], p)
  }

  /**
   * The map `agruparPostsPorMes` builds has an entry for exactly the months
   * some post falls in, and that entry holds the values of that month's
   * posts, in the order the posts came.
   */
  lemma {:induction false} GroupMeaning(posts: seq<Post>, ks: seq<string>, p: Plataforma, k: string)
    requires |ks| == |posts|
    ensures k in Group(posts, ks, p) <==> OfMonth(posts, ks, k) != []
    ensures k in Group(posts, ks, p) ==> Group(posts, ks, p)[k] == PushAll(Vacio, OfMonth(posts, ks, k), p)
  {
    if posts != [] {
      var n := |posts| - 1;
      GroupMeaning(posts[..n], ks[..n], p, k);
      if ks[n] == k {
        var ps := OfMonth(posts[..n], ks[..n], k);
        assert (ps + [posts[n]])[..|ps|] == ps;
      }
    }
  }

  /** A month's values of the likes and hours fields are the values its posts pushed. */
  lemma MonthValues(posts: seq<Post>, ks: seq<string>, p: Plataforma, mes: string)
    requires |ks| == |posts| && mes in ks
    ensures var a := PushAll(Vacio, OfMonth(posts, ks, mes), p);
      var g := Group(posts, ks, p);
      Valores(g, mes, Likes) == a.likes && Valores(g, mes, Horas) == a.horas
  {
    GroupMeaning(posts, ks, p, mes);
  }

  /** The likes of the posts, a missing count read as 0. */
  function LikesDe(posts: seq<Post>): (r: seq<int>)
    ensures |r| == |posts|
    ensures forall i :: 0 <= i < |posts| ==> r[i] == posts[i].likes.GetOr(0)
  {
    seq(|posts|, i requires 0 <= i < |posts| => posts[i].likes.GetOr(0))
  }

  /** Pushing Instagram posts onto empty lists collects exactly their likes, and eight views per like. */
  lemma {:induction false} PushAllInstagram(posts: seq<Post>)
    ensures PushAll(Vacio, posts, Instagram).likes == LikesDe(posts)
    ensures |PushAll(Vacio, posts, Instagram).vistas| == |posts|
    ensures forall i :: 0 <= i < |posts| ==> PushAll(Vacio, posts, Instagram).vistas[i] == 8 * LikesDe(posts)[i]
  {
    if posts != [] {
      var pre := posts[..|posts| - 1];
      PushAllInstagram(pre);
      assert LikesDe(posts) == LikesDe(pre) + [posts[|posts| - 1].likes.GetOr(0)];
    }
  }

  /**
   * The Instagram likes series: each listed month's total is the sum of
   * the likes of that month's posts.
   */
  lemma MonthlyLikes(posts: seq<Post>, i: nat)
    requires WellFormedPosts(posts)
    requires i < |SortLex(Claves(posts))|
    ensures var mes := SortLex(Claves(posts))[i];
      Agrupar(posts, Instagram).likes[i] == Sum(LikesDe(OfMonth(posts, Keys(posts), mes)))
  {
    var mes := SortLex(Claves(posts))[i];
    assert mes in Claves(posts);
    MonthValues(posts, Keys(posts), Instagram, mes);
    PushAllInstagram(OfMonth(posts, Keys(posts), mes));
  }

  /** Pushing Reddit posts onto empty lists adds 24 hours per post. */
  lemma {:induction false} PushAllRedditHours(posts: seq<Post>)
    ensures var h := PushAll(Vacio, posts, Reddit).horas;
      |h| == |posts| && forall j :: 0 <= j < |h| ==> h[j] == 24
  {
    if posts != [] {
      PushAllRedditHours(posts[..|posts| - 1]);
    }
  }

  /** Posts give at least one month, and one date label per distinct month. */
  lemma AgruparLabels(posts: seq<Post>, p: Plataforma)
    requires WellFormedPosts(posts) && posts != []
    ensures var a := Agrupar(posts, p);
      var meses := SortLex(Claves(posts));
      Aligned(a) && |a.fechas| == |meses| == |Claves(posts)| > 0 &&
      forall i :: 0 <= i < |meses| ==> Some(a.fechas[i]) == FormatearRangoFecha(meses[i])
  {
    assert Keys(posts)[0] in Claves(posts);
    var c := Claves(posts);
    assert |multiset(SortLex(c))| == |multiset(c)|;
  }

  /**
   * The grouping with the months in time order, which the per-month series
   * are meant to follow: the months of `Agrupar`, listed by (year, month)
   * instead of in string order.
   */
  function AgruparCronologico(posts: seq<Post>, p: Plataforma): (r: Agrupado)
    requires WellFormedPosts(posts)
    ensures Aligned(r)
    ensures var meses := MesesCronologicos(Claves(posts));
      |r.fechas| == |meses| &&
      forall i :: 0 <= i < |meses| ==> Some(r.fechas[i]) == FormatearRangoFecha(meses[i])
  {
    var meses := MesesCronologicos(Claves(posts));
    SameElements(meses, Claves(posts));
    Resumen(meses, Group(posts, Keys(posts), p))
  }

  /** Posts give at least one month; the months are those of the string order, now in time order. */
  lemma AgruparCronologicoMeses(posts: seq<Post>, p: Plataforma)
    requires WellFormedPosts(posts) && posts != []
    ensures var meses := MesesCronologicos(Claves(posts));
      |AgruparCronologico(posts, p).fechas| == |meses| > 0 &&
      multiset(meses) == multiset(SortLex(Claves(posts))) &&
      StableSort.SortedBy(meses, ChronoKey)
  {
    assert Keys(posts)[0] in Claves(posts);
    var c := Claves(posts);
    assert |multiset(MesesCronologicos(c))| == |multiset(c)|;
  }

  /** The Reddit hours series: 24 for every post of the month. */
  lemma MonthlyHours(posts: seq<Post>, i: nat)
    requires WellFormedPosts(posts)
    requires i < |SortLex(Claves(posts))|
    ensures var mes := SortLex(Claves(posts))[i];
      Agrupar(posts, Reddit).horas[i] == 24 * |OfMonth(posts, Keys(posts), mes)|
  {
    var mes := SortLex(Claves(posts))[i];
    var ps := OfMonth(posts, Keys(posts), mes);
    assert mes in Claves(posts);
    MonthValues(posts, Keys(posts), Reddit, mes);
    PushAllRedditHours(ps);
    SumOfConstant(PushAll(Vacio, ps, Reddit).horas);
  }

  lemma {:induction false} SumOfConstant(s: seq<int>)
    requires forall j :: 0 <= j < |s| ==> s[j] == 24
    ensures Sum(s) == 24 * |s|
  {
    if s != [] {
      SumOfConstant(s[..|s| - 1]);
    }
  }

  // ---------------------------------------------------------------------
  // transformarParaInstagram and transformarParaReddit
  // ---------------------------------------------------------------------

  /** Every group's posts have readable or unreadable dates, never a month outside 1..12. */
  predicate WellFormedGrupos(grupos: Option<seq<Grupo<Post>>>) {
    grupos.Some? ==>
      forall i :: 0 <= i < |grupos.value| && grupos.value[i].posts.Some? ==>
        WellFormedPosts(grupos.value[i].posts.value)
  }

  /** `grupos.find(grupo => grupo.keyword === hashtag)`: the first group of that keyword. */
  function FindGrupo(gs: seq<Grupo<Post>>, keyword: string): (r: Option<Grupo<Post>>)
    ensures r.None? <==> forall i :: 0 <= i < |gs| ==> gs[i].keyword != keyword
    ensures r.Some? ==> exists i :: 0 <= i < |gs| && gs[i] == r.value && r.value.keyword == keyword
                                     && forall j :: 0 <= j < i ==> gs[j].keyword != keyword
  {
    FindFirst(gs, (g: Grupo<Post>) => g.keyword, keyword)
  }

  /** `datos?.find(...)?.posts || []`: the posts of the hashtag's group, none when anything is missing. */
  function PostsDe(grupos: Option<seq<Grupo<Post>>>, hashtag: string): (posts: seq<Post>)
    requires WellFormedGrupos(grupos)
    ensures WellFormedPosts(posts)
    ensures posts != [] ==>
      grupos.Some? && FindGrupo(grupos.value, hashtag).Some? &&
      FindGrupo(grupos.value, hashtag).value.posts == Some(posts)
  {
    match grupos
    case None => []
    case Some(gs) =>
      match FindGrupo(gs, hashtag)
      case None => []
      case Some(g) =>
        var i :| 0 <= i < |gs| && gs[i] == g;
        g.posts.GetOr([])
  }

  /** The grouped series a platform's calculator reads. */
  function SeriesDe(a: Agrupado, p: Plataforma): (r: map<Campo, seq<int>>)
    requires p != X && Aligned(a)
    ensures r.Keys == CamposDe(p)
    ensures forall c :: c in r ==> |r[c]| == |a.fechas|
  {
    match p
    case Instagram =>
      map[Likes := a.likes, Comentarios := a.comentarios, Vistas := a.vistas,
          Seguidores := a.seguidores, Compartidos := a.compartidos]
    case Reddit =>
      map[UpVotes := a.upVotes, Comentarios := a.comentarios,
          Suscriptores := a.suscriptores, Horas := a.horas]
  }

  /** The input of a hashtag whose posts were grouped into `a`. */
  function Entrada(p: Plataforma, hashtag: string, index: nat, a: Agrupado): HashtagInput
    requires p != X && Aligned(a)
  {
    HashtagInput(hashtag, GenerarIdAutomatico(hashtag, index), a.fechas, SeriesDe(a, p))
  }

  /**
   * One hashtag's input as written: the placeholder when its group has no
   * posts, otherwise one date label per month with posts, with the month
   * keys in string order as `agruparPostsPorMes` lists them, and the
   * grouped series.
   */
  function HashtagDe(p: Plataforma, grupos: Option<seq<Grupo<Post>>>, hashtag: string, index: nat): (h: HashtagInput)
    requires p != X && WellFormedGrupos(grupos)
    ensures h.hashtag == hashtag && h.id == GenerarIdAutomatico(hashtag, index)
    ensures h.series.Keys == CamposDe(p)
    ensures forall c :: c in h.series ==> |h.series[c]| == |h.fechas|
    ensures PostsDe(grupos, hashtag) == [] ==> h == CrearHashtagVacio(p, hashtag, index)
    ensures var posts := PostsDe(grupos, hashtag);
      posts != [] ==>
        var meses := SortLex(Claves(posts));
        h.fechas != [] && |h.fechas| == |meses| && LexSorted(meses) &&
        forall i :: 0 <= i < |meses| ==> Some(h.fechas[i]) == FormatearRangoFecha(meses[i])
  {
    var posts := PostsDe(grupos, hashtag);
    if posts == [] then CrearHashtagVacio(p, hashtag, index)
    else
      AgruparLabels(posts, p);
      Entrada(p, hashtag, index, Agrupar(posts, p))
  }

  /**
   * One hashtag's input as intended: the same, with the months in time
   * order (see `AgruparCronologico`).
   */
  function HashtagDeCronologico(p: Plataforma, grupos: Option<seq<Grupo<Post>>>, hashtag: string, index: nat): (h: HashtagInput)
    requires p != X && WellFormedGrupos(grupos)
    ensures h.hashtag == hashtag && h.id == GenerarIdAutomatico(hashtag, index)
    ensures h.series.Keys == CamposDe(p)
    ensures forall c :: c in h.series ==> |h.series[c]| == |h.fechas|
    ensures PostsDe(grupos, hashtag) == [] ==> h == CrearHashtagVacio(p, hashtag, index)
    ensures var posts := PostsDe(grupos, hashtag);
      posts != [] ==>
        var meses := MesesCronologicos(Claves(posts));
        h.fechas != [] && |h.fechas| == |meses| &&
        StableSort.SortedBy(meses, ChronoKey) &&
        forall i :: 0 <= i < |meses| ==> Some(h.fechas[i]) == FormatearRangoFecha(meses[i])
  {
    var posts := PostsDe(grupos, hashtag);
    if posts == [] then CrearHashtagVacio(p, hashtag, index)
    else
      AgruparCronologicoMeses(posts, p);
      Entrada(p, hashtag, index, AgruparCronologico(posts, p))
  }

  /** `transformarParaInstagram` and `transformarParaReddit`: one input per hashtag, in order. */
  function TransformarPara(p: Plataforma, hashtags: seq<string>, grupos: Option<seq<Grupo<Post>>>): (hs: seq<HashtagInput>)
    requires p != X && WellFormedGrupos(grupos)
    ensures |hs| == |hashtags|
    ensures forall i :: 0 <= i < |hs| ==> hs[i] == HashtagDe(p, grupos, hashtags[i], i)
  {
    seq(|hashtags|, i requires 0 <= i < |hashtags| => HashtagDe(p, grupos, hashtags[i], i))
  }

  /** The same transformation with every hashtag's months in time order. */
  function TransformarParaCronologico(p: Plataforma, hashtags: seq<string>, grupos: Option<seq<Grupo<Post>>>): (hs: seq<HashtagInput>)
    requires p != X && WellFormedGrupos(grupos)
    ensures |hs| == |hashtags|
    ensures forall i :: 0 <= i < |hs| ==> hs[i] == HashtagDeCronologico(p, grupos, hashtags[i], i)
  {
    seq(|hashtags|, i requires 0 <= i < |hashtags| => HashtagDeCronologico(p, grupos, hashtags[i], i))
  }

  /**
   * The two orders give each hashtag the same id, fields and number of
   * months; only the order of the labels and series may differ.
   */
  lemma OrdenSoloCambiaFechas(p: Plataforma, grupos: Option<seq<Grupo<Post>>>, hashtag: string, index: nat)
    requires p != X && WellFormedGrupos(grupos)
    ensures var h := HashtagDe(p, grupos, hashtag, index);
      var c := HashtagDeCronologico(p, grupos, hashtag, index);
      h.hashtag == c.hashtag && h.id == c.id && h.series.Keys == c.series.Keys && |h.fechas| == |c.fechas|
  {
    var posts := PostsDe(grupos, hashtag);
    if posts != [] {
      var k := Claves(posts);
      assert |multiset(MesesCronologicos(k))| == |multiset(SortLex(k))|;
    }
  }

  /**
   * Every input of a platform carries its own hashtag, an id no other input
   * shares, the platform's fields and series as long as its dates.
   */
  lemma TransformarParaShape(p: Plataforma, hashtags: seq<string>, grupos: Option<seq<Grupo<Post>>>)
    requires p != X && WellFormedGrupos(grupos)
    ensures var hs := TransformarPara(p, hashtags, grupos);
      (forall i :: 0 <= i < |hs| ==> hs[i].hashtag == hashtags[i] && hs[i].series.Keys == CamposDe(p) &&
                                     forall c :: c in hs[i].series ==> |hs[i].series[c]| == |hs[i].fechas|) &&
      (forall i, j :: 0 <= i < j < |hs| ==> hs[i].id != hs[j].id)
  {
    var hs := TransformarPara(p, hashtags, grupos);
    forall i, j | 0 <= i < j < |hs| ensures hs[i].id != hs[j].id {
      IdsDistinct(hashtags[i], i, hashtags[j], j);
    }
  }
}
