/**
 * String helpers shared by the modelled sources: the trimming, splitting,
 * joining, substring search and ASCII character classes that Rust's `str`
 * and JavaScript's `String` provide. Strings are sequences of characters.
 */
module Text {
  import opened Wrappers

  /** The white-space characters removed by `trim` (the ASCII ones). */
  predicate IsSpace(c: char) {
    c == ' ' || c == '\t' || c == '\n' || c == '\r' || c == '\U{000B}' || c == '\U{000C}'
  }

  predicate IsDigit(c: char) { '0' <= c <= '9' }
  predicate IsUpper(c: char) { 'A' <= c <= 'Z' }
  predicate IsLower(c: char) { 'a' <= c <= 'z' }
  predicate IsLetter(c: char) { IsUpper(c) || IsLower(c) }
  predicate IsAlnum(c: char) { IsLetter(c) || IsDigit(c) }
  /** Regex `\w` restricted to ASCII: letters, digits and `_`. */
  predicate IsWordChar(c: char) { IsAlnum(c) || c == '_' }

  /** A string made only of white space (empty included). */
  predicate Blank(s: string)
    decreases |s|
  {
    s == [] || (IsSpace(s[0]) && Blank(s[1..]))
  }

  predicate AllDigits(s: string) {
    forall i :: 0 <= i < |s| ==> IsDigit(s[i])
  }

  /** `/^\d+$/`: one or more ASCII digits and nothing else. */
  predicate IsNumeral(s: string) {
    s != [] && AllDigits(s)
  }

  /** `str::trim` / `String.prototype.trim`: drops white space at both ends. */
  function Trim(s: string): (r: string)
    ensures |r| <= |s|
    ensures r == [] || (!IsSpace(r[0]) && !IsSpace(r[|r| - 1]))
    ensures r == [] <==> Blank(s)
    decreases |s|
  {
    if s != [] && IsSpace(s[0]) then Trim(s[1..])
    else if s != [] && IsSpace(s[|s| - 1]) then
      assert s[..|s| - 1][0] == s[0];
      Trim(s[..|s| - 1])
    else s
  }

  /** A string that neither starts nor ends with white space is its own trim. */
  lemma TrimNoop(s: string)
    requires s == [] || (!IsSpace(s[0]) && !IsSpace(s[|s| - 1]))
    ensures Trim(s) == s
  {
  }

  /** Trimming twice is trimming once. */
  lemma TrimIdempotent(s: string)
    ensures Trim(Trim(s)) == Trim(s)
  {
    TrimNoop(Trim(s));
  }

  /** Trimming keeps only characters of the original string. */
  lemma {:induction false} TrimmedLacks(s: string, c: char)
    requires c !in s
    ensures c !in Trim(s)
    decreases |s|
  {
    if s != [] && IsSpace(s[0]) {
      assert s == [s[0]] + s[1..];
      TrimmedLacks(s[1..], c);
    } else if s != [] && IsSpace(s[|s| - 1]) {
      assert s == s[..|s| - 1] + [s[|s| - 1]];
      TrimmedLacks(s[..|s| - 1], c);
    }
  }

  /** `pat` occurs in `s` at position `i`. */
  predicate OccursAt(s: string, pat: string, i: nat) {
    i + |pat| <= |s| && s[i..i + |pat|] == pat
  }

  /** `str::contains` / `String.prototype.includes`, computed by scanning. */
  predicate Contains(s: string, pat: string)
    decreases |s|
  {
    pat <= s || (s != [] && Contains(s[1..], pat))
  }

  /** The scan finds exactly the strings that occur somewhere in `s`. */
  lemma ContainsIff(s: string, pat: string)
    ensures Contains(s, pat) <==> exists i: nat :: OccursAt(s, pat, i)
  {
    if Contains(s, pat) {
      var i := ContainsOccurs(s, pat);
    }
    forall i: nat | OccursAt(s, pat, i) ensures Contains(s, pat) {
      OccursContains(s, pat, i);
    }
  }

  /** A successful scan stops at an occurrence. */
  lemma {:induction false} ContainsOccurs(s: string, pat: string) returns (i: nat)
    requires Contains(s, pat)
    ensures OccursAt(s, pat, i)
    decreases |s|
  {
    if pat <= s {
      i := 0;
      assert s[..|pat|] == pat;
    } else {
      var j := ContainsOccurs(s[1..], pat);
      i := j + 1;
      assert s[i..i + |pat|] == s[1..][j..j + |pat|];
    }
  }

  /** The scan reaches every occurrence. */
  lemma {:induction false} OccursContains(s: string, pat: string, i: nat)
    requires OccursAt(s, pat, i)
    ensures Contains(s, pat)
    decreases i
  {
    if i == 0 {
      assert s[..|pat|] == pat;
    } else {
      assert s[1..][i - 1..i - 1 + |pat|] == s[i..i + |pat|];
      OccursContains(s[1..], pat, i - 1);
    }
  }

  /** Index of the first occurrence of `pat` in `s`, if any. */
  function IndexOf(s: string, pat: string): (r: Option<nat>)
    ensures r.Some? ==> OccursAt(s, pat, r.value)
    ensures r.Some? ==> forall j: nat :: j < r.value ==> !OccursAt(s, pat, j)
    ensures r.None? ==> forall j: nat :: !OccursAt(s, pat, j)
    decreases |s|
  {
    if pat <= s then Some(0)
    else if s == [] then None
    else match IndexOf(s[1..], pat)
      case None =>
        assert forall j: nat :: !OccursAt(s, pat, j) by {
          forall j: nat | OccursAt(s, pat, j) ensures false {
            if j > 0 { OccursShift(s, pat, j - 1); }
          }
        }
        None
      case Some(k) =>
        assert s[1..][k..k + |pat|] == s[k + 1..k + 1 + |pat|];
        assert forall j: nat :: j < k + 1 ==> !OccursAt(s, pat, j) by {
          forall j: nat | j < k + 1 && OccursAt(s, pat, j) ensures false {
            if j > 0 { OccursShift(s, pat, j - 1); }
          }
        }
        Some(k + 1)
  }

  /**
   * `str::split` with a non-empty string pattern (and `String.prototype.split`
   * with a string separator): the pieces between the leftmost non-overlapping
   * occurrences of `pat`, always at least one piece.
   */
  function SplitOn(s: string, pat: string): (parts: seq<string>)
    requires pat != []
    ensures |parts| >= 1
    decreases |s|
  {
    if s == [] then [""]
    else if pat <= s then [""] + SplitOn(s[|pat|..], pat)
    else
      var rest := SplitOn(s[1..], pat);
      [[s[0]] + rest[0]] + rest[1..]
  }

  /** `str::split` / `String.prototype.split` on one character. */
  function Split(s: string, sep: char): (parts: seq<string>)
    ensures |parts| >= 1
  {
    SplitOn(s, [sep])
  }

  /** Joins the pieces with `sep` between consecutive ones (`join`). */
  function Join(parts: seq<string>, sep: string): string
    decreases |parts|
  {
    if parts == [] then ""
    else if |parts| == 1 then parts[0]
    else parts[0] + sep + Join(parts[1..], sep)
  }

  /** Splitting and joining back with the same separator gives the string back. */
  lemma {:induction false} JoinSplitOn(s: string, pat: string)
    requires pat != []
    ensures Join(SplitOn(s, pat), pat) == s
    decreases |s|
  {
    if s == [] {
    } else if pat <= s {
      JoinSplitOn(s[|pat|..], pat);
      JoinEmptyHead(SplitOn(s[|pat|..], pat), pat);
      assert s == pat + s[|pat|..];
    } else {
      JoinSplitOn(s[1..], pat);
      JoinExtendHead(s[0], SplitOn(s[1..], pat), pat);
      assert s == [s[0]] + s[1..];
    }
  }

  lemma JoinEmptyHead(rest: seq<string>, pat: string)
    requires |rest| >= 1
    ensures Join([""] + rest, pat) == pat + Join(rest, pat)
  {
    assert ([""] + rest)[1..] == rest;
  }

  lemma JoinExtendHead(c: char, rest: seq<string>, pat: string)
    requires |rest| >= 1
    ensures Join([[c] + rest[0]] + rest[1..], pat) == [c] + Join(rest, pat)
  {
    var parts := [[c] + rest[0]] + rest[1..];
    if |rest| > 1 {
      var tail := Join(rest[1..], pat);
      assert parts[1..] == rest[1..];
      assert ([c] + rest[0]) + pat + tail == [c] + (rest[0] + pat + tail);
    }
  }

  /** No piece of a split on one character contains that character. */
  lemma {:induction false} SplitPiecesLackSep(s: string, sep: char)
    ensures forall p :: p in Split(s, sep) ==> sep !in p
    decreases |s|
  {
    if s != [] {
      SplitPiecesLackSep(s[1..], sep);
    }
  }

  /** `pat` occurs at `j + 1` in `s` exactly when it occurs at `j` in `s[1..]`. */
  lemma OccursShift(s: string, pat: string, j: nat)
    requires s != []
    ensures OccursAt(s[1..], pat, j) <==> OccursAt(s, pat, j + 1)
  {
    if j + 1 + |pat| <= |s| {
      assert s[1..][j..j + |pat|] == s[j + 1..j + 1 + |pat|];
    }
  }

  /** A string in which `pat` does not occur is one piece. */
  lemma {:induction false} SplitOnNoOccurrence(s: string, pat: string)
    requires pat != [] && forall j: nat :: !OccursAt(s, pat, j)
    ensures SplitOn(s, pat) == [s]
    decreases |s|
  {
    if s != [] {
      assert !OccursAt(s, pat, 0);
      assert !(pat <= s);
      forall j: nat ensures !OccursAt(s[1..], pat, j) {
        OccursShift(s, pat, j);
      }
      SplitOnNoOccurrence(s[1..], pat);
      assert [s[0]] + s[1..] == s;
    }
  }

  /** Splitting cuts at the first occurrence of the pattern. */
  lemma {:induction false} SplitOnFirst(s: string, pat: string, i: nat)
    requires pat != [] && OccursAt(s, pat, i)
    requires forall j: nat :: j < i ==> !OccursAt(s, pat, j)
    ensures SplitOn(s, pat) == [s[..i]] + SplitOn(s[i + |pat|..], pat)
    decreases i
  {
    if i == 0 {
      assert pat <= s by { assert s[0..|pat|] == pat; }
    } else {
      assert !OccursAt(s, pat, 0);
      assert !(pat <= s);
      OccursShift(s, pat, i - 1);
      forall j: nat | j < i - 1 ensures !OccursAt(s[1..], pat, j) {
        OccursShift(s, pat, j);
      }
      SplitOnFirst(s[1..], pat, i - 1);
      var rest := SplitOn(s[1..], pat);
      assert SplitOn(s, pat) == [[s[0]] + rest[0]] + rest[1..];
      assert s[1..][i - 1 + |pat|..] == s[i + |pat|..];
      assert rest[1..] == SplitOn(s[i + |pat|..], pat);
      assert [s[0]] + rest[0] == s[..i];
    }
  }

  /**
   * Joining pieces in which the separator's first character never occurs and
   * splitting the result on that separator gives the pieces back.
   */
  lemma {:induction false} SplitOnJoin(parts: seq<string>, pat: string)
    requires pat != [] && |parts| >= 1
    requires forall i :: 0 <= i < |parts| ==> pat[0] !in parts[i]
    ensures SplitOn(Join(parts, pat), pat) == parts
    decreases |parts|
  {
    var w := parts[0];
    var s := Join(parts, pat);
    if |parts| == 1 {
      forall j: nat ensures !OccursAt(s, pat, j) {
        if j < |s| { assert s[j] == w[j]; }
      }
      SplitOnNoOccurrence(s, pat);
    } else {
      var rest := Join(parts[1..], pat);
      assert s == w + pat + rest;
      assert s[|w|..|w| + |pat|] == pat;
      forall j: nat | j < |w| ensures !OccursAt(s, pat, j) {
        assert s[j] == w[j];
        if j + |pat| <= |s| { assert s[j..j + |pat|][0] == s[j]; }
      }
      SplitOnFirst(s, pat, |w|);
      assert s[..|w|] == w;
      assert s[|w| + |pat|..] == rest;
      SplitOnJoin(parts[1..], pat);
    }
  }

  /** A character found neither in the separator nor in any piece is not in the join. */
  lemma {:induction false} JoinLacks(parts: seq<string>, sep: string, c: char)
    requires c !in sep
    requires forall i :: 0 <= i < |parts| ==> c !in parts[i]
    ensures c !in Join(parts, sep)
    decreases |parts|
  {
    if |parts| > 1 {
      JoinLacks(parts[1..], sep, c);
    }
  }

  /** No two elements are equal. */
  predicate Distinct<T(==)>(s: seq<T>) {
    forall i, j :: 0 <= i < j < |s| ==> s[i] != s[j]
  }

  /** `ws.filter(y => y !== x)`: every entry equal to `x` dropped, the rest in order. */
  function Without<T(==,!new)>(ws: seq<T>, x: T): (r: seq<T>)
    ensures |r| <= |ws|
    ensures forall y :: y in r <==> y in ws && y != x
  {
    if ws == [] then []
    else (if ws[0] == x then [] else [ws[0]]) + Without(ws[1..], x)
  }

  /** Filtering distributes over concatenation, so the kept entries stay in their order. */
  lemma {:induction false} WithoutConcat<T(!new)>(a: seq<T>, b: seq<T>, x: T)
    ensures Without(a + b, x) == Without(a, x) + Without(b, x)
  {
    if a == [] {
      assert a + b == b;
    } else {
      assert (a + b)[1..] == a[1..] + b;
      WithoutConcat(a[1..], b, x);
    }
  }

  /** A list without `x` is left as it is. */
  lemma {:induction false} WithoutAbsent<T(!new)>(ws: seq<T>, x: T)
    requires x !in ws
    ensures Without(ws, x) == ws
  {
    if ws != [] {
      assert ws[0] != x;
      WithoutAbsent(ws[1..], x);
    }
  }

  /** Dropping entries keeps a duplicate-free list duplicate-free. */
  lemma {:induction false} WithoutDistinct<T(!new)>(ws: seq<T>, x: T)
    requires Distinct(ws)
    ensures Distinct(Without(ws, x))
  {
    if ws != [] {
      assert Distinct(ws[1..]);
      WithoutDistinct(ws[1..], x);
      var rest := Without(ws[1..], x);
      assert ws[0] !in rest by {
        assert ws[0] !in ws[1..];
      }
    }
  }

  /** Removing the entry just appended gives back the list from before the append. */
  lemma AddThenRemove<T(!new)>(ws: seq<T>, w: T)
    requires w !in ws
    ensures Without(ws + [w], w) == ws
  {
    WithoutConcat(ws, [w], w);
    WithoutAbsent(ws, w);
    assert Without([w], w) == [];
  }

  /** `Array.from(new Set(s))`: every entry once, in order of first occurrence. */
  function Dedup<T(==,!new)>(s: seq<T>): (r: seq<T>)
    ensures Distinct(r)
    ensures forall x :: x in r <==> x in s
    ensures |r| <= |s|
  {
    if s == [] then []
    else
      var d := Dedup(s[..|s| - 1]);
      if s[|s| - 1] in d then d
      else
        assert forall i :: 0 <= i < |d| ==> d[i] in s[..|s| - 1];
        d + [s[|s| - 1]]
  }

  /** A string without the separator is one piece. */
  lemma {:induction false} SplitNoSep(s: string, sep: char)
    requires sep !in s
    ensures Split(s, sep) == [s]
    decreases |s|
  {
    if s != [] {
      SplitNoSep(s[1..], sep);
      assert s == [s[0]] + s[1..];
    }
  }

  /** The text before the first separator is the first piece. */
  lemma {:induction false} SplitPrefix(a: string, sep: char, b: string)
    requires sep !in a
    ensures Split(a + [sep] + b, sep) == [a] + Split(b, sep)
    decreases |a|
  {
    var s := a + [sep] + b;
    if a == [] {
      assert s == [sep] + b;
      assert s[1..] == b;
    } else {
      SplitPrefix(a[1..], sep, b);
      assert s[1..] == a[1..] + [sep] + b;
      assert s[0] == a[0] && a[0] != sep;
      assert !([sep] <= s);
      var rest := SplitOn(s[1..], [sep]);
      assert rest == [a[1..]] + Split(b, sep);
      assert rest[0] == a[1..] && rest[1..] == Split(b, sep);
      assert [s[0]] + a[1..] == a;
    }
  }

  /** Joining pieces that lack the separator and splitting again gives the pieces back. */
  lemma {:induction false} SplitJoin(parts: seq<string>, sep: char)
    requires |parts| >= 1
    requires forall i :: 0 <= i < |parts| ==> sep !in parts[i]
    ensures Split(Join(parts, [sep]), sep) == parts
    decreases |parts|
  {
    if |parts| == 1 {
      SplitNoSep(parts[0], sep);
    } else {
      SplitJoin(parts[1..], sep);
      SplitPrefix(parts[0], sep, Join(parts[1..], [sep]));
      assert parts == [parts[0]] + parts[1..];
    }
  }

  /** The characters of `s` satisfying `keep`, in order. */
  function FilterChars(s: string, keep: char -> bool): (r: string)
    ensures |r| <= |s|
    ensures forall c :: c in r <==> c in s && keep(c)
  {
    if s == [] then ""
    else (if keep(s[0]) then [s[0]] else []) + FilterChars(s[1..], keep)
  }

  /** ASCII lower-casing of one character. */
  function LowerChar(c: char): (r: char)
    ensures !IsUpper(r)
    ensures IsUpper(c) ==> r as int == c as int + 32
    ensures !IsUpper(c) ==> r == c
  {
    if IsUpper(c) then (c as int + 32) as char else c
  }

  /** ASCII upper-casing of one character. */
  function UpperChar(c: char): (r: char)
    ensures !IsLower(r)
    ensures IsLower(c) ==> r as int == c as int - 32
    ensures !IsLower(c) ==> r == c
  {
    if IsLower(c) then (c as int - 32) as char else c
  }

  /** `toLowerCase` / `to_lowercase` on the ASCII letters. */
  function ToLower(s: string): (r: string)
    ensures |r| == |s|
    ensures forall i :: 0 <= i < |s| ==> r[i] == LowerChar(s[i])
  {
    if s == [] then "" else [LowerChar(s[0])] + ToLower(s[1..])
  }

  /** The decimal digit for `d`. */
  function DigitChar(d: nat): (c: char)
    requires d < 10
    ensures IsDigit(c) && c as int - '0' as int == d
  {
    (d + '0' as int) as char
  }

  /** Decimal representation of a natural number, without leading zeros. */
  function NatToString(n: nat): (s: string)
    ensures |s| >= 1 && IsDigit(s[0])
    ensures n >= 10 ==> s[0] != '0'
    decreases n
  {
    if n < 10 then [DigitChar(n)] else NatToString(n / 10) + [DigitChar(n % 10)]
  }

  /** The value of a string of decimal digits. */
  function DigitsValue(s: string): nat
    requires AllDigits(s)
  {
    if s == [] then 0 else DigitsValue(s[..|s| - 1]) * 10 + (s[|s| - 1] as int - '0' as int)
  }

  /** Reading back the decimal representation gives the number. */
  lemma {:induction false} NatToStringRoundTrip(n: nat)
    ensures AllDigits(NatToString(n)) && DigitsValue(NatToString(n)) == n
    decreases n
  {
    if n >= 10 {
      NatToStringRoundTrip(n / 10);
      var s := NatToString(n);
      assert s == NatToString(n / 10) + [DigitChar(n % 10)];
      assert s[..|s| - 1] == NatToString(n / 10);
    }
  }

  /** JavaScript's `${n}` for an integer. */
  function IntToString(n: int): (s: string)
    ensures |s| >= 1
    ensures n < 0 <==> s[0] == '-'
  {
    if n < 0 then "-" + NatToString(-n) else NatToString(n)
  }

  /** `String.prototype.padStart(width, fill)`. */
  function PadStart(s: string, width: nat, fill: char): (r: string)
    ensures |r| == if |s| < width then width else |s|
  {
    if |s| < width then Repeat(fill, width - |s|) + s else s
  }

  /** `PadStart` ends with the text and puts only fill characters in front of it. */
  lemma PadStartShape(s: string, width: nat, fill: char)
    ensures var r := PadStart(s, width, fill);
      && r[|r| - |s|..] == s
      && forall i :: 0 <= i < |r| - |s| ==> r[i] == fill
  {
    var r := PadStart(s, width, fill);
    assert r[|r| - |s|..] == s;
  }

  function Repeat(c: char, n: nat): (r: string)
    ensures |r| == n
  {
    seq(n, _ => c)
  }

  /**
   * `s.find(x => key(x) === k)`: the first element whose key is `k`, none
   * when no element has it.
   */
  function FindFirst<T(==)>(s: seq<T>, key: T -> string, k: string): (r: Option<T>)
    ensures r.None? <==> forall i :: 0 <= i < |s| ==> key(s[i]) != k
    ensures r.Some? ==> exists i :: 0 <= i < |s| && s[i] == r.value && key(r.value) == k
                                     && forall j :: 0 <= j < i ==> key(s[j]) != k
  {
    if s == [] then None
    else if key(s[0]) == k then Some(s[0])
    else
      var r := FindFirst(s[1..], key, k);
      if r.Some? then
        var i :| 0 <= i < |s| - 1 && s[1..][i] == r.value && key(r.value) == k
                 && forall j :: 0 <= j < i ==> key(s[1..][j]) != k;
        assert s[i + 1] == r.value && forall j :: 0 <= j < i + 1 ==> key(s[j]) != k;
        r
      else
        r
  }

  /** The first `n` elements, or all of them when there are fewer (`take(n)`). */
  function Take<T>(s: seq<T>, n: nat): (r: seq<T>)
    ensures |r| == if |s| <= n then |s| else n
    ensures r <= s
  {
    if |s| <= n then s else s[..n]
  }

  /** `s.slice(-n)`: the last `n` entries, or all of them when there are fewer. */
  function LastN<T>(s: seq<T>, n: nat): (r: seq<T>)
    ensures |r| == if |s| <= n then |s| else n
    ensures r == s[|s| - |r|..]
  {
    if |s| <= n then s else s[|s| - n..]
  }

  function Pow10(k: nat): nat {
    if k == 0 then 1 else 10 * Pow10(k - 1)
  }

  /** A number below `10^k` has at most `k` digits. */
  lemma {:induction false} NatToStringLength(n: nat, k: nat)
    requires k >= 1 && n < Pow10(k)
    ensures |NatToString(n)| <= k
    decreases k
  {
    if n >= 10 {
      assert k >= 2;
      NatToStringLength(n / 10, k - 1);
    }
  }

  /** A leading zero does not change the value of a digit string. */
  lemma {:induction false} LeadingZero(s: string)
    requires AllDigits(s)
    ensures AllDigits("0" + s) && DigitsValue("0" + s) == DigitsValue(s)
    decreases |s|
  {
    if s != [] {
      LeadingZero(s[..|s| - 1]);
      assert ("0" + s)[..|s|] == "0" + s[..|s| - 1];
    }
  }

  /** Leading zeros do not change the value of a digit string. */
  lemma {:induction false} LeadingZeros(k: nat, s: string)
    requires AllDigits(s)
    ensures AllDigits(Repeat('0', k) + s) && DigitsValue(Repeat('0', k) + s) == DigitsValue(s)
    decreases k
  {
    if k == 0 {
      assert Repeat('0', k) + s == s;
    } else {
      LeadingZeros(k - 1, s);
      assert Repeat('0', k) == "0" + Repeat('0', k - 1);
      assert Repeat('0', k) + s == "0" + (Repeat('0', k - 1) + s);
      LeadingZero(Repeat('0', k - 1) + s);
    }
  }

  /** Zero padding does not change the value of a digit string. */
  lemma ZeroPaddedValue(s: string, width: nat)
    requires AllDigits(s)
    ensures AllDigits(PadStart(s, width, '0'))
    ensures DigitsValue(PadStart(s, width, '0')) == DigitsValue(s)
  {
    if |s| < width {
      LeadingZeros(width - |s|, s);
    }
  }

  /** Lower-casing distributes over concatenation. */
  lemma ToLowerConcat(a: string, b: string)
    ensures ToLower(a + b) == ToLower(a) + ToLower(b)
  {
  }
}
