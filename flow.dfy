/**
 * The deterministic parts of the trend flow controller
 * (core/server/app/src/controllers/flow.rs): collecting the distinct
 * hashtags of scraped data, turning the language model's answer into a news
 * query sentence and a list of hashtags, and reshaping scraped trends (as
 * JSON) into an analytics request.
 */
module Flow {
  import opened Wrappers
  import opened Text

  // ---------------------------------------------------------------------
  // Distinct hashtags of the scraped data
  // ---------------------------------------------------------------------

  /** A scraped item; only its keyword is read here. */
  datatype ScrapedItem = ScrapedItem(keyword: string)

  /** The scraped data of the three platforms. */
  datatype Trends = Trends(instagram: seq<ScrapedItem>, reddit: seq<ScrapedItem>, twitter: seq<ScrapedItem>)

  function Keywords(items: seq<ScrapedItem>): seq<string> {
    seq(|items|, i requires 0 <= i < |items| => items[i].keyword)
  }

  lemma KeywordsConcat(a: seq<ScrapedItem>, b: seq<ScrapedItem>)
    ensures Keywords(a + b) == Keywords(a) + Keywords(b)
  {
  }

  /**
   * The first occurrence of every element, in order: scanning left to right
   * and appending what has not been kept yet.
   */
  function KeepFirst<T(==)>(s: seq<T>): seq<T> {
    if s == [] then []
    else
      var kept := KeepFirst(s[..|s| - 1]);
      if s[|s| - 1] in kept then kept else kept + [s[|s| - 1]]
  }

  lemma KeepFirstSnoc<T>(s: seq<T>, x: T)
    ensures KeepFirst(s + [x]) == if x in KeepFirst(s) then KeepFirst(s) else KeepFirst(s) + [x]
  {
    assert (s + [x])[..|s|] == s;
  }

  /** `KeepFirst` keeps exactly the elements of its input. */
  lemma {:induction false} KeepFirstMembers<T>(s: seq<T>, x: T)
    ensures x in KeepFirst(s) <==> x in s
    decreases |s|
  {
    if s != [] {
      KeepFirstMembers(s[..|s| - 1], x);
      assert s == s[..|s| - 1] + [s[|s| - 1]];
    }
  }

  /** `KeepFirst` has no duplicates. */
  lemma {:induction false} KeepFirstDistinct<T>(s: seq<T>)
    ensures Distinct(KeepFirst(s))
    decreases |s|
  {
    if s != [] {
      KeepFirstDistinct(s[..|s| - 1]);
    }
  }

  /** On a sequence without duplicates `KeepFirst` changes nothing. */
  lemma {:induction false} KeepFirstOfDistinct<T>(s: seq<T>)
    requires Distinct(s)
    ensures KeepFirst(s) == s
    decreases |s|
  {
    if s != [] {
      var p := s[..|s| - 1];
      KeepFirstOfDistinct(p);
      forall i | 0 <= i < |p| ensures p[i] != s[|s| - 1] {
        assert p[i] == s[i];
      }
      assert s == p + [s[|s| - 1]];
    }
  }

  /** What has been kept from a prefix stays kept, in the same order. */
  lemma {:induction false} KeepFirstPrefix<T>(a: seq<T>, b: seq<T>)
    ensures KeepFirst(a) <= KeepFirst(a + b)
    decreases |b|
  {
    if b == [] {
      assert a + b == a;
    } else {
      var c := b[..|b| - 1];
      KeepFirstPrefix(a, c);
      assert a + b == (a + c) + [b[|b| - 1]];
      KeepFirstSnoc(a + c, b[|b| - 1]);
    }
  }

  /** One of the three loops: appends the keywords not yet collected. */
  method AppendNew(all: seq<string>, ghost prior: seq<string>, items: seq<ScrapedItem>)
    returns (r: seq<string>)
    requires all == KeepFirst(prior)
    ensures r == KeepFirst(prior + Keywords(items))
  {
    r := all;
    var i := 0;
    assert prior + Keywords(items[..0]) == prior;
    while i < |items|
      invariant 0 <= i <= |items|
      invariant r == KeepFirst(prior + Keywords(items[..i]))
    {
      var k := items[i].keyword;
      KeywordsConcat(items[..i], [items[i]]);
      assert items[..i + 1] == items[..i] + [items[i]];
      assert prior + Keywords(items[..i + 1]) == (prior + Keywords(items[..i])) + [k];
      KeepFirstSnoc(prior + Keywords(items[..i]), k);
      if k !in r {
        r := r + [k];
      }
      i := i + 1;
    }
    assert items[..|items|] == items;
  }

  /**
   * `extract_all_hashtags_from_scraped_data`: the first occurrence of every
   * keyword over Instagram, then Reddit, then Twitter.
   */
  method ExtractAllHashtags(t: Trends) returns (r: seq<string>)
    ensures r == KeepFirst(Keywords(t.instagram) + Keywords(t.reddit) + Keywords(t.twitter))
  {
    assert [] + Keywords(t.instagram) == Keywords(t.instagram);
    r := AppendNew([], [], t.instagram);
    r := AppendNew(r, Keywords(t.instagram), t.reddit);
    r := AppendNew(r, Keywords(t.instagram) + Keywords(t.reddit), t.twitter);
  }

  /**
   * What the collected hashtags are: every keyword of the three platforms,
   * each once, and the Instagram keywords' first occurrences come first.
   */
  lemma ExtractAllHashtagsMeaning(t: Trends)
    ensures var r := KeepFirst(Keywords(t.instagram) + Keywords(t.reddit) + Keywords(t.twitter));
      Distinct(r)
      && (forall k :: k in r <==> k in Keywords(t.instagram) || k in Keywords(t.reddit) || k in Keywords(t.twitter))
      && KeepFirst(Keywords(t.instagram)) <= r
  {
    var all := Keywords(t.instagram) + Keywords(t.reddit) + Keywords(t.twitter);
    KeepFirstDistinct(all);
    forall k ensures k in KeepFirst(all) <==> k in Keywords(t.instagram) || k in Keywords(t.reddit) || k in Keywords(t.twitter) {
      KeepFirstMembers(all, k);
    }
    assert all == Keywords(t.instagram) + (Keywords(t.reddit) + Keywords(t.twitter));
    KeepFirstPrefix(Keywords(t.instagram), Keywords(t.reddit) + Keywords(t.twitter));
  }

  // ---------------------------------------------------------------------
  // Parsing the model's answer
  // ---------------------------------------------------------------------

  const ThinkClose: string := "</think>"

  /** The text of `s` before the first occurrence of `pat`, or all of it. */
  function Before(s: string, pat: string): string {
    match IndexOf(s, pat)
    case Some(k) => s[..k]
    case None => s
  }

  /** The first piece of a split is the text before the first occurrence. */
  lemma SplitOnHead(s: string, pat: string)
    requires pat != []
    ensures SplitOn(s, pat)[0] == Before(s, pat)
  {
    match IndexOf(s, pat)
    case Some(k) => SplitOnFirst(s, pat, k);
    case None => SplitOnNoOccurrence(s, pat);
  }

  /**
   * The trimmed answer, split on "</think>"; the second piece (trimmed) when
   * there is one, else the whole trimmed answer.
   */
  function AfterThink(response: string): string {
    var content := Trim(response);
    var parts := SplitOn(content, ThinkClose);
    Trim(if |parts| > 1 then parts[1] else content)
  }

  /** Without "</think>", the answer is only trimmed. */
  lemma AfterThinkNoTag(response: string)
    requires IndexOf(Trim(response), ThinkClose).None?
    ensures AfterThink(response) == Trim(response)
  {
    SplitOnNoOccurrence(Trim(response), ThinkClose);
    TrimIdempotent(response);
  }

  /**
   * With "</think>" at `i` (its first occurrence), the text used is what
   * follows it, up to a second "</think>" if any, trimmed.
   */
  lemma AfterThinkTag(response: string, i: nat)
    requires IndexOf(Trim(response), ThinkClose) == Some(i)
    ensures AfterThink(response) == Trim(Before(Trim(response)[i + |ThinkClose|..], ThinkClose))
  {
    var content := Trim(response);
    SplitOnFirst(content, ThinkClose, i);
    SplitOnHead(content[i + |ThinkClose|..], ThinkClose);
  }

  /** A non-empty word with no white space at either end. */
  predicate WellFormedWord(w: string) {
    w != [] && !IsSpace(w[0]) && !IsSpace(w[|w| - 1])
  }

  /** Trimmed non-empty pieces, in order. */
  function TrimmedNonEmpty(pieces: seq<string>): (r: seq<string>)
    ensures |r| <= |pieces|
    ensures forall i :: 0 <= i < |r| ==> WellFormedWord(r[i])
    ensures forall w :: w in r ==> exists j :: 0 <= j < |pieces| && w == Trim(pieces[j])
  {
    if pieces == [] then []
    else
      var w := Trim(pieces[0]);
      assert w == [] || WellFormedWord(w);
      var rest := TrimmedNonEmpty(pieces[1..]);
      if w == [] then rest else [w] + rest
  }

  /** The query words: at most five non-empty trimmed pieces of `raw` split on ", ". */
  function Words(raw: string): (r: seq<string>)
    ensures |r| <= 5
    ensures forall i :: 0 <= i < |r| ==> WellFormedWord(r[i])
  {
    Take(TrimmedNonEmpty(SplitOn(raw, ", ")), 5)
  }

  /** Words joined by ", " come back as themselves. */
  lemma WordsOfJoin(ws: seq<string>)
    requires 1 <= |ws| <= 5
    requires forall i :: 0 <= i < |ws| ==> WellFormedWord(ws[i]) && ',' !in ws[i]
    ensures Words(Join(ws, ", ")) == ws
  {
    SplitOnJoin(ws, ", ");
    TrimmedNonEmptyNoop(ws);
  }

  lemma {:induction false} TrimmedNonEmptyNoop(ws: seq<string>)
    requires forall i :: 0 <= i < |ws| ==> WellFormedWord(ws[i])
    ensures TrimmedNonEmpty(ws) == ws
    decreases |ws|
  {
    if ws != [] {
      TrimNoop(ws[0]);
      TrimmedNonEmptyNoop(ws[1..]);
    }
  }

  function RemoveDashes(w: string): (r: string)
    ensures '-' !in r
    ensures forall c :: c in r <==> c in w && c != '-'
  {
    FilterChars(w, c => c != '-')
  }

  function AllRemoveDashes(ws: seq<string>): (r: seq<string>)
    ensures |r| == |ws|
    ensures forall i :: 0 <= i < |ws| ==> r[i] == RemoveDashes(ws[i])
  {
    seq(|ws|, i requires 0 <= i < |ws| => RemoveDashes(ws[i]))
  }

  /** The news query: the dash-free words joined by " OR ", in parentheses. */
  function Sentence(words: seq<string>): (r: string)
    ensures |r| >= 2 && r[0] == '(' && r[|r| - 1] == ')'
    ensures '-' !in r
  {
    JoinLacks(AllRemoveDashes(words), " OR ", '-');
    "(" + Join(AllRemoveDashes(words), " OR ") + ")"
  }

  /**
   * For single words (no spaces), the text in the parentheses splits on
   * " OR " into exactly the words with their dashes removed.
   */
  lemma SentenceAlternatives(words: seq<string>)
    requires |words| >= 1
    requires forall i :: 0 <= i < |words| ==> ' ' !in words[i]
    ensures var r := Sentence(words);
      SplitOn(r[1..|r| - 1], " OR ") == AllRemoveDashes(words)
  {
    var r := Sentence(words);
    assert r[1..|r| - 1] == Join(AllRemoveDashes(words), " OR ");
    SplitOnJoin(AllRemoveDashes(words), " OR ");
  }

  /** The length of the run of word characters at the start of `s`. */
  function RunLength(s: string): (n: nat)
    ensures n <= |s|
    ensures forall k :: 0 <= k < n ==> IsWordChar(s[k])
    ensures n == |s| || !IsWordChar(s[n])
  {
    if s != [] && IsWordChar(s[0]) then 1 + RunLength(s[1..]) else 0
  }

  /** A hashtag as the pattern `#\w+` captures it, without the '#'. */
  predicate IsTag(t: string) {
    t != [] && forall k :: 0 <= k < |t| ==> IsWordChar(t[k])
  }

  /**
   * The matches of `#\w+`, left to right and without overlap, with the '#'
   * stripped.
   */
  function Hashtags(s: string): (r: seq<string>)
    ensures forall t :: t in r ==> IsTag(t)
  {
    if s == [] then []
    else if s[0] == '#' && |s| > 1 && IsWordChar(s[1]) then
      var n := RunLength(s[1..]);
      [s[1..1 + n]] + Hashtags(s[1 + n..])
    else Hashtags(s[1..])
  }

  /** Hashtags written as "#a #b #c". */
  function Tagged(tags: seq<string>): string {
    if tags == [] then ""
    else if |tags| == 1 then "#" + tags[0]
    else "#" + tags[0] + " " + Tagged(tags[1..])
  }

  lemma {:induction false} RunLengthOf(t: string, rest: string)
    requires IsTag(t)
    requires rest == [] || !IsWordChar(rest[0])
    ensures RunLength(t + rest) == |t|
    decreases |t|
  {
    if |t| > 1 {
      RunLengthOf(t[1..], rest);
      assert (t + rest)[1..] == t[1..] + rest;
    } else {
      assert (t + rest)[1..] == rest;
    }
  }

  /** The hashtags written out by `Tagged` are read back by `Hashtags`. */
  lemma {:induction false} HashtagsOfTagged(tags: seq<string>)
    requires forall i :: 0 <= i < |tags| ==> IsTag(tags[i])
    ensures Hashtags(Tagged(tags)) == tags
    decreases |tags|
  {
    if |tags| == 1 {
      HashtagsStep(tags[0], "");
      assert "#" + tags[0] + "" == Tagged(tags);
    } else if |tags| > 1 {
      HashtagsOfTaggedCons(tags);
      HashtagsOfTagged(tags[1..]);
    }
  }

  lemma HashtagsOfTaggedCons(tags: seq<string>)
    requires |tags| > 1 && IsTag(tags[0])
    ensures Hashtags(Tagged(tags)) == [tags[0]] + Hashtags(Tagged(tags[1..]))
  {
    var t, tail := tags[0], Tagged(tags[1..]);
    assert Tagged(tags) == "#" + t + " " + tail;
    HashtagsSpaced(t, tail);
  }

  /** A hashtag followed by a space is read as one whole tag, and the space is skipped. */
  lemma HashtagsSpaced(t: string, tail: string)
    requires IsTag(t)
    ensures Hashtags("#" + t + " " + tail) == [t] + Hashtags(tail)
  {
    var rest := " " + tail;
    assert "#" + t + " " + tail == "#" + t + rest;
    assert rest[0] == ' ' && !IsWordChar(' ');
    HashtagsStep(t, rest);
    HashtagsSkip(' ', tail);
  }

  lemma HashtagsSkip(c: char, s: string)
    requires c != '#'
    ensures Hashtags([c] + s) == Hashtags(s)
  {
    assert ([c] + s)[1..] == s;
  }

  /** A hashtag followed by a non-word character is read as one whole tag. */
  lemma HashtagsStep(t: string, rest: string)
    requires IsTag(t)
    requires rest == [] || !IsWordChar(rest[0])
    ensures Hashtags("#" + t + rest) == [t] + Hashtags(rest)
  {
    var s := "#" + t + rest;
    assert s[1..] == t + rest;
    RunLengthOf(t, rest);
    assert s[0] == '#' && s[1] == t[0] && IsWordChar(s[1]);
    assert s[1..1 + |t|] == t;
    assert s[1 + |t|..] == rest;
  }

  /** The sentence and hashtags taken from the model's answer. */
  datatype Query = Query(sentence: string, hashtags: seq<string>)

  /**
   * The answer after "</think>" is split on '@'; the words come from the
   * first piece and the hashtags from the second (none when there is no '@').
   */
  function ParseResponse(response: string): (q: Query)
    ensures |q.sentence| >= 2 && q.sentence[0] == '(' && '-' !in q.sentence
    ensures forall t :: t in q.hashtags ==> IsTag(t)
  {
    var after := AfterThink(response);
    var parts := Split(after, '@');
    var raw := Trim(parts[0]);
    var block := if |parts| > 1 then Trim(parts[1]) else "";
    Query(Sentence(Words(raw)), Hashtags(block))
  }

  lemma {:induction false} TaggedEnds(tags: seq<string>)
    requires tags != [] && forall i :: 0 <= i < |tags| ==> IsTag(tags[i])
    ensures var s := Tagged(tags); s != [] && s[0] == '#' && IsWordChar(s[|s| - 1])
    decreases |tags|
  {
    if |tags| > 1 {
      TaggedEnds(tags[1..]);
    }
  }

  /** Hashtags written out hold only '#', spaces and word characters. */
  lemma {:induction false} TaggedLacks(tags: seq<string>, c: char)
    requires forall i :: 0 <= i < |tags| ==> IsTag(tags[i])
    requires c != '#' && c != ' ' && !IsWordChar(c)
    ensures c !in Tagged(tags)
    decreases |tags|
  {
    if tags != [] {
      assert c !in tags[0];
    }
    if |tags| > 1 {
      TaggedLacks(tags[1..], c);
    }
  }

  lemma {:induction false} JoinEnds(ws: seq<string>, sep: string)
    requires |ws| >= 1 && forall i :: 0 <= i < |ws| ==> ws[i] != []
    ensures var s := Join(ws, sep);
      s != [] && s[0] == ws[0][0] && s[|s| - 1] == ws[|ws| - 1][|ws[|ws| - 1]| - 1]
    decreases |ws|
  {
    if |ws| > 1 {
      JoinEnds(ws[1..], sep);
    }
  }

  /** An answer without '<' and with nothing to trim is used whole. */
  lemma AfterThinkPlain(response: string)
    requires WellFormedWord(response) && '<' !in response
    ensures AfterThink(response) == response
  {
    TrimNoop(response);
    NoThinkClose(response);
    SplitOnNoOccurrence(response, ThinkClose);
  }

  /** An answer made of words, '@' and hashtags has no '<' and nothing to trim. */
  lemma ResponseShape(ws: seq<string>, tags: seq<string>)
    requires 1 <= |ws|
    requires forall i :: 0 <= i < |ws| ==> WellFormedWord(ws[i]) && '<' !in ws[i]
    requires forall i :: 0 <= i < |tags| ==> IsTag(tags[i])
    ensures var response := Join(ws, ", ") + "@" + Tagged(tags);
      WellFormedWord(response) && '<' !in response
  {
    var j := Join(ws, ", ");
    var t := Tagged(tags);
    var response := j + "@" + t;
    JoinEnds(ws, ", ");
    assert response[0] == j[0];
    if tags == [] {
      assert response[|response| - 1] == '@';
    } else {
      TaggedEnds(tags);
      assert response[|response| - 1] == t[|t| - 1];
    }
    JoinLacks(ws, ", ", '<');
    TaggedLacks(tags, '<');
  }

  lemma NoThinkClose(s: string)
    requires '<' !in s
    ensures forall k: nat :: !OccursAt(s, ThinkClose, k)
  {
    forall k: nat ensures !OccursAt(s, ThinkClose, k) {
      if k + |ThinkClose| <= |s| {
        assert s[k..k + |ThinkClose|][0] == s[k];
      }
    }
  }

  /** Such an answer splits on '@' into the joined words and the hashtags. */
  lemma ResponseParts(ws: seq<string>, tags: seq<string>)
    requires forall i :: 0 <= i < |ws| ==> '@' !in ws[i]
    requires forall i :: 0 <= i < |tags| ==> IsTag(tags[i])
    ensures Split(Join(ws, ", ") + "@" + Tagged(tags), '@') == [Join(ws, ", "), Tagged(tags)]
  {
    TaggedLacks(tags, '@');
    JoinLacks(ws, ", ", '@');
    SplitPrefix(Join(ws, ", "), '@', Tagged(tags));
    SplitNoSep(Tagged(tags), '@');
  }

  lemma JoinTrimmed(ws: seq<string>)
    requires 1 <= |ws| && forall i :: 0 <= i < |ws| ==> WellFormedWord(ws[i])
    ensures Trim(Join(ws, ", ")) == Join(ws, ", ")
  {
    var s := Join(ws, ", ");
    JoinEnds(ws, ", ");
    assert WellFormedWord(ws[0]) && WellFormedWord(ws[|ws| - 1]);
    TrimNoop(s);
  }

  lemma WordCharNotSpace(c: char)
    requires IsWordChar(c)
    ensures !IsSpace(c)
  {
  }

  lemma TaggedTrimmed(tags: seq<string>)
    requires forall i :: 0 <= i < |tags| ==> IsTag(tags[i])
    ensures Trim(Tagged(tags)) == Tagged(tags)
  {
    var s := Tagged(tags);
    if tags != [] {
      TaggedEnds(tags);
      WordCharNotSpace(s[|s| - 1]);
    }
    TrimNoop(s);
  }

  /** The parse of an answer whose two '@'-pieces are known and trimmed. */
  lemma ParseResponseOf(response: string, words: string, block: string)
    requires AfterThink(response) == response
    requires Split(response, '@') == [words, block]
    requires Trim(words) == words && Trim(block) == block
    ensures ParseResponse(response) == Query(Sentence(Words(words)), Hashtags(block))
  {
  }

  /**
   * An answer in the requested shape, "w1, w2, ...@#h1 #h2 ...", is read
   * back as the sentence of its words and exactly its hashtags.
   */
  lemma ParseResponseRoundTrip(ws: seq<string>, tags: seq<string>)
    requires 1 <= |ws| <= 5
    requires forall i :: 0 <= i < |ws| ==> WellFormedWord(ws[i]) && ',' !in ws[i] && '@' !in ws[i] && '<' !in ws[i]
    requires forall i :: 0 <= i < |tags| ==> IsTag(tags[i])
    ensures ParseResponse(Join(ws, ", ") + "@" + Tagged(tags)) == Query(Sentence(ws), tags)
  {
    var j := Join(ws, ", ");
    var t := Tagged(tags);
    ResponseShape(ws, tags);
    AfterThinkPlain(j + "@" + t);
    ResponseParts(ws, tags);
    JoinTrimmed(ws);
    TaggedTrimmed(tags);
    ParseResponseOf(j + "@" + t, j, t);
    WordsOfJoin(ws);
    HashtagsOfTagged(tags);
  }

  // ---------------------------------------------------------------------
  // Scraped trends to an analytics request
  // ---------------------------------------------------------------------

  /** A JSON value, with integral numbers. */
  datatype Json =
    | JNull
    | JBool(b: bool)
    | JNum(n: int)
    | JStr(s: string)
    | JArr(items: seq<Json>)
    | JObj(fields: map<string, Json>)

  /** `Value::get` with a string key: the field of an object, else nothing. */
  function Get(v: Json, key: string): (r: Option<Json>)
    ensures r.Some? <==> v.JObj? && key in v.fields
  {
    if v.JObj? && key in v.fields then Some(v.fields[key]) else None
  }

  function AsArray(v: Option<Json>): Option<seq<Json>> {
    if v.Some? && v.value.JArr? then Some(v.value.items) else None
  }

  function AsStr(v: Option<Json>): Option<string> {
    if v.Some? && v.value.JStr? then Some(v.value.s) else None
  }

  /** The items listed under `data.<platform>`, if that is an array. */
  function PlatformItems(trends: Json, platform: string): Option<seq<Json>> {
    var data := Get(trends, "data");
    if data.Some? then AsArray(Get(data.value, platform)) else None
  }

  datatype HashtagData = HashtagData(keyword: string, posts: seq<Json>)

  /** An item's hashtag data, when its keyword is a string and its posts an array. */
  function ItemData(item: Json): (r: Option<HashtagData>)
    ensures r.Some? <==> AsStr(Get(item, "keyword")).Some? && AsArray(Get(item, "posts")).Some?
  {
    var keyword := AsStr(Get(item, "keyword"));
    var posts := AsArray(Get(item, "posts"));
    if keyword.Some? && posts.Some? then Some(HashtagData(keyword.value, posts.value)) else None
  }

  /** The hashtag data of the well-formed items, in order. */
  function Collected(items: seq<Json>): (r: seq<HashtagData>)
    ensures |r| <= |items|
  {
    if items == [] then []
    else
      var d := ItemData(items[|items| - 1]);
      Collected(items[..|items| - 1]) + (if d.Some? then [d.value] else [])
  }

  /** Items are dropped exactly when they are malformed; the rest keep their data. */
  lemma {:induction false} CollectedMembers(items: seq<Json>, h: HashtagData)
    ensures h in Collected(items) <==> exists i :: 0 <= i < |items| && ItemData(items[i]) == Some(h)
    decreases |items|
  {
    if items != [] {
      var p := items[..|items| - 1];
      CollectedMembers(p, h);
      if exists i :: 0 <= i < |p| && ItemData(p[i]) == Some(h) {
        var i :| 0 <= i < |p| && ItemData(p[i]) == Some(h);
        assert items[i] == p[i];
      }
      if exists i :: 0 <= i < |items| && ItemData(items[i]) == Some(h) {
        var i :| 0 <= i < |items| && ItemData(items[i]) == Some(h);
        if i < |p| { assert p[i] == items[i]; }
      }
    }
  }

  /** When every item is well formed, nothing is dropped and the order is kept. */
  lemma {:induction false} CollectedAllWellFormed(items: seq<Json>)
    requires forall i :: 0 <= i < |items| ==> ItemData(items[i]).Some?
    ensures |Collected(items)| == |items|
    ensures forall i :: 0 <= i < |items| ==> Some(Collected(items)[i]) == ItemData(items[i])
    decreases |items|
  {
    if items != [] {
      CollectedAllWellFormed(items[..|items| - 1]);
    }
  }

  /** One platform's loop: pushes the data of each well-formed item. */
  method CollectPlatform(trends: Json, platform: string) returns (r: seq<HashtagData>)
    ensures r == match PlatformItems(trends, platform) case Some(items) => Collected(items) case None => []
  {
    r := [];
    var found := PlatformItems(trends, platform);
    if found.Some? {
      var items := found.value;
      var i := 0;
      while i < |items|
        invariant 0 <= i <= |items|
        invariant r == Collected(items[..i])
      {
        assert items[..i + 1][..i] == items[..i];
        var d := ItemData(items[i]);
        if d.Some? {
          r := r + [d.value];
        }
        i := i + 1;
      }
      assert items[..|items|] == items;
    }
  }

  datatype AnalyticsRequest = AnalyticsRequest(
    hashtags: seq<string>,
    instagram: seq<HashtagData>,
    reddit: seq<HashtagData>,
    twitter: seq<HashtagData>,
    sales: seq<Json>)

  function PlatformData(trends: Json, platform: string): seq<HashtagData> {
    match PlatformItems(trends, platform)
    case Some(items) => Collected(items)
    case None => []
  }

  /**
   * `convert_trends_to_analytics_request`: the hashtags unchanged, each
   * platform's well-formed items, and no sales.
   */
  method ConvertTrendsToAnalyticsRequest(trends: Json, hashtags: seq<string>)
    returns (req: AnalyticsRequest)
    ensures req.hashtags == hashtags && req.sales == []
    ensures req.instagram == PlatformData(trends, "instagram")
    ensures req.reddit == PlatformData(trends, "reddit")
    ensures req.twitter == PlatformData(trends, "twitter")
  {
    var instagram := CollectPlatform(trends, "instagram");
    var reddit := CollectPlatform(trends, "reddit");
    var twitter := CollectPlatform(trends, "twitter");
    req := AnalyticsRequest(hashtags, instagram, reddit, twitter, []);
  }

  /** Without a `data` object, or without the platform's array, that platform is empty. */
  lemma PlatformDataMissing(trends: Json, platform: string)
    requires Get(trends, "data").None? || AsArray(Get(Get(trends, "data").value, platform)).None?
    ensures PlatformData(trends, platform) == []
  {
  }
}
