/**
 * The deterministic parts of the GDELT news scraper
 * (core/server/app/src/scraping/notices.rs): the request parameters with
 * their date bounds, the splitting of an article's meta keywords, and the
 * post-processing of the scraped article details (keep the three with most
 * keywords, and of each article its keyword with fewest words, as a
 * PascalCase hashtag).
 */
module Notices {
  import opened Text
  import StableSort

  const Mode: string := "artlist"
  const Format: string := "JSON"
  const MaxArticles: nat := 3
  const MaxHashtags: nat := 1

  // ---------------------------------------------------------------------
  // Request parameters
  // ---------------------------------------------------------------------

  /** A calendar date as chrono's `NaiveDate` holds it. */
  datatype Date = Date(year: int, month: nat, day: nat)

  predicate ValidDate(d: Date) {
    1 <= d.month <= 12 && 1 <= d.day <= 31
  }

  /** chrono's `%Y`: four digits at least, with a sign outside years 0..9999. */
  function FormatYear(y: int): (s: string)
    ensures 0 <= y <= 9999 ==> |s| == 4 && AllDigits(s) && DigitsValue(s) == y
  {
    if y < 0 then "-" + PadStart(NatToString(-y), 4, '0')
    else if y > 9999 then "+" + NatToString(y)
    else
      NatToStringLength(y, 4);
      NatToStringRoundTrip(y);
      ZeroPaddedValue(NatToString(y), 4);
      PadStart(NatToString(y), 4, '0')
  }

  /** chrono's `%m` or `%d`: two digits, zero padded. */
  function TwoDigits(n: nat): (s: string)
    ensures n <= 99 ==> |s| == 2 && AllDigits(s) && DigitsValue(s) == n
  {
    if n <= 99 then
      NatToStringLength(n, 2);
      NatToStringRoundTrip(n);
      ZeroPaddedValue(NatToString(n), 2);
      PadStart(NatToString(n), 2, '0')
    else PadStart(NatToString(n), 2, '0')
  }

  /** `format("%Y%m%d")`. */
  function Ymd(d: Date): string {
    FormatYear(d.year) + TwoDigits(d.month) + TwoDigits(d.day)
  }

  datatype Params = Params(
    query: string,
    mode: string,
    startdatetime: string,
    enddatetime: string,
    format: string,
    language: string)

  /** `Params::new`: the start bound opens its day, the end bound closes its own. */
  function NewParams(query: string, start: Date, end: Date, language: string): (p: Params)
    ensures p.query == query && p.language == language
    ensures p.mode == "artlist" && p.format == "JSON"
    ensures p.startdatetime == Ymd(start) + "000000"
    ensures p.enddatetime == Ymd(end) + "235959"
  {
    Params(query, Mode, Ymd(start) + "000000", Ymd(end) + "235959", Format, language)
  }

  /**
   * For a date of years 0..9999 a bound is fourteen digits that read back
   * as the year, the month, the day and the time of day.
   */
  lemma BoundDecodes(d: Date, time: string)
    requires ValidDate(d) && 0 <= d.year <= 9999
    requires time == "000000" || time == "235959"
    ensures var s := Ymd(d) + time;
      |s| == 14 && AllDigits(s)
      && DigitsValue(s[..4]) == d.year
      && DigitsValue(s[4..6]) == d.month
      && DigitsValue(s[6..8]) == d.day
      && s[8..] == time
  {
    var y := FormatYear(d.year);
    var m := TwoDigits(d.month);
    var dd := TwoDigits(d.day);
    var s := Ymd(d) + time;
    assert s == y + m + dd + time;
    assert s[..4] == y;
    assert s[4..6] == m;
    assert s[6..8] == dd;
  }

  /** The two bounds of one date share their date part and span the whole day. */
  lemma BoundsOfOneDay(query: string, d: Date, language: string)
    requires ValidDate(d) && 0 <= d.year <= 9999
    ensures var p := NewParams(query, d, d, language);
      p.startdatetime[..8] == p.enddatetime[..8]
      && p.startdatetime[8..] == "000000" && p.enddatetime[8..] == "235959"
  {
    BoundDecodes(d, "000000");
    BoundDecodes(d, "235959");
    var p := NewParams(query, d, d, language);
    assert p.startdatetime[..8] == Ymd(d);
    assert p.enddatetime[..8] == Ymd(d);
  }

  // ---------------------------------------------------------------------
  // Article details
  // ---------------------------------------------------------------------

  datatype Info = Info(title: string, url: string, description: string, keywords: seq<string>)

  function TrimAll(ps: seq<string>): (r: seq<string>)
    ensures |r| == |ps|
    ensures forall i :: 0 <= i < |ps| ==> r[i] == Trim(ps[i])
  {
    seq(|ps|, i requires 0 <= i < |ps| => Trim(ps[i]))
  }

  lemma TrimAllFacts(ps: seq<string>, c: char)
    requires forall i :: 0 <= i < |ps| ==> c !in ps[i]
    ensures forall i :: 0 <= i < |ps| ==> c !in TrimAll(ps)[i] && Trim(TrimAll(ps)[i]) == TrimAll(ps)[i]
  {
    forall i | 0 <= i < |ps| ensures c !in TrimAll(ps)[i] && Trim(TrimAll(ps)[i]) == TrimAll(ps)[i] {
      TrimIdempotent(ps[i]);
      TrimmedLacks(ps[i], c);
    }
  }

  /** The `content` of the keywords meta tag, split on ',' with each piece trimmed. */
  function MetaKeywords(content: string): (r: seq<string>)
    ensures |r| >= 1 && |r| == |Split(content, ',')|
    ensures forall i :: 0 <= i < |r| ==> ',' !in r[i] && Trim(r[i]) == r[i]
  {
    var pieces := Split(content, ',');
    SplitPiecesLackSep(content, ',');
    TrimAllFacts(pieces, ',');
    TrimAll(pieces)
  }

  /** Trimmed keywords without commas, joined by ',', are read back unchanged. */
  lemma MetaKeywordsOfJoin(ks: seq<string>)
    requires |ks| >= 1
    requires forall i :: 0 <= i < |ks| ==> ',' !in ks[i] && Trim(ks[i]) == ks[i]
    ensures MetaKeywords(Join(ks, ",")) == ks
  {
    SplitJoin(ks, ',');
  }

  /** Details with more keywords sort first; equal counts keep their order. */
  function CountKey(info: Info): StableSort.Key {
    (-|info.keywords|, 0)
  }

  /** `keyword.split(" ").count()`: pieces between single spaces, empty ones included. */
  function WordCount(k: string): (n: nat)
    ensures n >= 1
  {
    |Split(k, ' ')|
  }

  function WordCountKey(k: string): StableSort.Key {
    (WordCount(k), 0)
  }

  /** Upper-cases the first character and keeps the rest. */
  function Capitalize(w: string): (r: string)
    ensures |r| == |w|
    ensures w != [] ==> r[0] == UpperChar(w[0]) && r[1..] == w[1..]
  {
    if w == [] then [] else [UpperChar(w[0])] + w[1..]
  }

  function Concat(ws: seq<string>): string {
    if ws == [] then [] else ws[0] + Concat(ws[1..])
  }

  function NonEmpty(ws: seq<string>): (r: seq<string>)
    ensures forall i :: 0 <= i < |r| ==> r[i] != [] && r[i] in ws
  {
    if ws == [] then []
    else (if ws[0] == [] then [] else [ws[0]]) + NonEmpty(ws[1..])
  }

  function CapitalizeAll(ws: seq<string>): (r: seq<string>)
    ensures |r| == |ws|
    ensures forall i :: 0 <= i < |ws| ==> r[i] == Capitalize(ws[i])
  {
    seq(|ws|, i requires 0 <= i < |ws| => Capitalize(ws[i]))
  }

  /**
   * The hashtag form of a keyword: lower-cased, split on single spaces,
   * empty pieces dropped, each word capitalised, all concatenated.
   */
  function PascalCase(k: string): string {
    Concat(CapitalizeAll(NonEmpty(Split(ToLower(k), ' '))))
  }

  lemma CapitalizeLacksSpace(w: string)
    requires ' ' !in w
    ensures ' ' !in Capitalize(w)
  {
    if w != [] {
      assert w[0] != ' ';
      assert forall c :: c in w[1..] ==> c in w;
    }
  }

  lemma {:induction false} ConcatLacks(ws: seq<string>, c: char)
    requires forall i :: 0 <= i < |ws| ==> c !in ws[i]
    ensures c !in Concat(ws)
    decreases |ws|
  {
    if ws != [] {
      ConcatLacks(ws[1..], c);
    }
  }

  /** A hashtag has no spaces. */
  lemma PascalCaseHasNoSpace(k: string)
    ensures ' ' !in PascalCase(k)
  {
    var pieces := Split(ToLower(k), ' ');
    SplitPiecesLackSep(ToLower(k), ' ');
    var words := NonEmpty(pieces);
    forall i | 0 <= i < |words| ensures ' ' !in CapitalizeAll(words)[i] {
      CapitalizeLacksSpace(words[i]);
    }
    ConcatLacks(CapitalizeAll(words), ' ');
  }

  function ToLowerAll(ws: seq<string>): (r: seq<string>)
    ensures |r| == |ws|
    ensures forall i :: 0 <= i < |ws| ==> r[i] == ToLower(ws[i])
  {
    seq(|ws|, i requires 0 <= i < |ws| => ToLower(ws[i]))
  }

  lemma {:induction false} ToLowerJoin(ws: seq<string>)
    ensures ToLower(Join(ws, " ")) == Join(ToLowerAll(ws), " ")
    decreases |ws|
  {
    if |ws| > 1 {
      ToLowerJoin(ws[1..]);
      ToLowerConcat(ws[0], " " + Join(ws[1..], " "));
      ToLowerConcat(" ", Join(ws[1..], " "));
      assert ToLowerAll(ws)[1..] == ToLowerAll(ws[1..]);
    }
  }

  lemma {:induction false} NonEmptyOfNonEmpty(ws: seq<string>)
    requires forall i :: 0 <= i < |ws| ==> ws[i] != []
    ensures NonEmpty(ws) == ws
    decreases |ws|
  {
    if ws != [] {
      NonEmptyOfNonEmpty(ws[1..]);
    }
  }

  lemma LowerWords(ws: seq<string>)
    requires forall i :: 0 <= i < |ws| ==> ws[i] != [] && ' ' !in ws[i]
    ensures forall i :: 0 <= i < |ws| ==> ToLowerAll(ws)[i] != [] && ' ' !in ToLowerAll(ws)[i]
  {
    forall i | 0 <= i < |ws| ensures ' ' !in ToLower(ws[i]) {
      forall k | 0 <= k < |ws[i]| ensures ToLower(ws[i])[k] != ' ' {
        assert ws[i][k] != ' ';
      }
    }
  }

  /**
   * A keyword of words separated by single spaces becomes the concatenation
   * of its capitalised lower-cased words.
   */
  lemma PascalCaseOfWords(ws: seq<string>)
    requires |ws| >= 1
    requires forall i :: 0 <= i < |ws| ==> ws[i] != [] && ' ' !in ws[i]
    ensures PascalCase(Join(ws, " ")) == Concat(CapitalizeAll(ToLowerAll(ws)))
  {
    ToLowerJoin(ws);
    var lower := ToLowerAll(ws);
    LowerWords(ws);
    SplitJoin(lower, ' ');
    NonEmptyOfNonEmpty(lower);
  }

  function PascalCaseAll(ks: seq<string>): (r: seq<string>)
    ensures |r| == |ks|
    ensures forall i :: 0 <= i < |ks| ==> r[i] == PascalCase(ks[i])
  {
    seq(|ks|, i requires 0 <= i < |ks| => PascalCase(ks[i]))
  }

  /**
   * One detail's keywords: stably sorted by word count, cut to one, as a
   * hashtag.
   */
  function ShapeKeywords(info: Info): Info {
    info.(keywords := PascalCaseAll(Take(StableSort.SortBy(info.keywords, WordCountKey), MaxHashtags)))
  }

  /**
   * The kept keyword is the first one with the fewest words; nothing else
   * of the detail changes.
   */
  lemma ShapeKeepsFewestWords(info: Info, i: nat)
    requires i < |info.keywords|
    requires forall j :: 0 <= j < |info.keywords| ==> WordCount(info.keywords[i]) <= WordCount(info.keywords[j])
    requires forall j :: 0 <= j < i ==> WordCount(info.keywords[j]) != WordCount(info.keywords[i])
    ensures ShapeKeywords(info) == info.(keywords := [PascalCase(info.keywords[i])])
  {
    var ks := info.keywords;
    forall j | 0 <= j < |ks| ensures StableSort.KeyLe(WordCountKey(ks[i]), WordCountKey(ks[j])) {
    }
    StableSort.SortByHead(ks, WordCountKey, i);
  }

  /** A detail without keywords keeps none. */
  lemma ShapeWithoutKeywords(info: Info)
    requires info.keywords == []
    ensures ShapeKeywords(info) == info
  {
    assert StableSort.SortBy(info.keywords, WordCountKey) == [];
  }

  function ShapeAll(ds: seq<Info>): (r: seq<Info>)
    ensures |r| == |ds|
    ensures forall i :: 0 <= i < |ds| ==> r[i] == ShapeKeywords(ds[i])
  {
    seq(|ds|, i requires 0 <= i < |ds| => ShapeKeywords(ds[i]))
  }

  /** The post-processed details of the scraped articles. */
  function PostProcess(found: seq<Info>): seq<Info> {
    ShapeAll(Take(StableSort.SortBy(found, CountKey), MaxArticles))
  }

  /**
   * At most three details survive, each the shaped form of a scraped one;
   * no dropped detail has more keywords than a kept one, and every scraped
   * detail is kept or dropped exactly once.
   */
  lemma PostProcessKeepsMostKeywords(found: seq<Info>)
    ensures var sorted := StableSort.SortBy(found, CountKey);
      var n := if |found| <= MaxArticles then |found| else MaxArticles;
      |PostProcess(found)| == n
      && multiset(sorted) == multiset(found)
      && (forall i :: 0 <= i < n ==> PostProcess(found)[i] == ShapeKeywords(sorted[i]))
      && (forall i, j :: 0 <= i < n <= j < |found| ==> |sorted[i].keywords| >= |sorted[j].keywords|)
  {
    var sorted := StableSort.SortBy(found, CountKey);
    StableSort.SortBySorted(found, CountKey);
    StableSort.SortByPermutes(found, CountKey);
    var n := if |found| <= MaxArticles then |found| else MaxArticles;
    forall i, j | 0 <= i < n <= j < |found| ensures |sorted[i].keywords| >= |sorted[j].keywords| {
      assert StableSort.KeyLe(CountKey(sorted[i]), CountKey(sorted[j]));
    }
  }

  /**
   * One detail of the `for detail in &mut details` loop: its keyword list is
   * sorted in place by word count, cut to one and turned into a hashtag.
   */
  method ShapeDetail(info: Info) returns (r: Info)
    ensures r == ShapeKeywords(info)
  {
    var ks := new string[|info.keywords|](i requires 0 <= i < |info.keywords| => info.keywords[i]);
    assert ks[..] == info.keywords;
    StableSort.SortInPlace(ks, WordCountKey);
    var n := if ks.Length < MaxHashtags then ks.Length else MaxHashtags;
    var kept := ks[..n];
    r := info.(keywords := PascalCaseAll(kept));
  }

  /**
   * The end of `get_details`: sort the details in place by keyword count
   * (descending, stable), keep three, then shape each one's keywords.
   */
  method PostProcessDetails(found: seq<Info>) returns (details: seq<Info>)
    ensures details == PostProcess(found)
  {
    var a := new Info[|found|](i requires 0 <= i < |found| => found[i]);
    assert a[..] == found;
    StableSort.SortInPlace(a, CountKey);
    var n := if a.Length < MaxArticles then a.Length else MaxArticles;
    details := a[..n];
    ghost var kept := details;
    for i := 0 to |details|
      invariant |details| == |kept|
      invariant forall j :: 0 <= j < i ==> details[j] == ShapeKeywords(kept[j])
      invariant forall j :: i <= j < |details| ==> details[j] == kept[j]
    {
      var shaped := ShapeDetail(details[i]);
      details := details[i := shaped];
    }
  }
}
