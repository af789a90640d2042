/**
 * The `#[database(...)]` attribute macro of the server (`macros/src/lib.rs`):
 * the parser of its mini-language (`create`, `get_all`, `get(f,...)`,
 * `delete(f,...)`, `update(f)`, `update(f{a,b,...})`), the extraction of the
 * Diesel table name from the struct's attributes, and the names of the
 * generated methods. A Rust panic is modelled as a `Failure`.
 */
module DbMacro {
  import opened Wrappers
  import opened Text

  datatype UpdateOperation = UpdateOperation(filterBy: string, updateFields: seq<string>)

  /** `DatabaseOperations`. */
  datatype Ops = Ops(
    create: bool,
    updates: seq<UpdateOperation>,
    deletes: seq<string>,
    gets: seq<string>,
    getAll: bool)

  const NoOps: Ops := Ops(false, [], [], [], false)

  /** `attr_str.replace(" ", "")`. */
  function RemoveSpaces(s: string): (r: string)
    ensures ' ' !in r
    ensures forall c :: c != ' ' ==> (c in r <==> c in s)
  {
    FilterChars(s, c => c != ' ')
  }

  lemma {:induction false} RemoveSpacesNoop(s: string)
    requires ' ' !in s
    ensures RemoveSpaces(s) == s
  {
    if s != [] {
      RemoveSpacesNoop(s[1..]);
      assert s == [s[0]] + s[1..];
    }
  }

  /** `pat` starts at position `pos` of `s`. */
  predicate At(s: string, pos: nat, pat: string) {
    pos <= |s| && pat <= s[pos..]
  }

  lemma AtChars(s: string, pos: nat, pat: string)
    requires At(s, pos, pat)
    ensures pos + |pat| <= |s|
    ensures forall k :: 0 <= k < |pat| ==> s[pos + k] == pat[k]
  {
    assert forall k :: 0 <= k < |pat| ==> s[pos..][k] == s[pos + k];
  }

  predicate IsOpener(c: char) { c == '(' || c == '{' }
  predicate IsCloser(c: char) { c == ')' || c == '}' }

  /** A name inside the attribute: no comma and no bracket of either kind. */
  predicate Plain(s: string) {
    forall i :: 0 <= i < |s| ==> s[i] != ',' && !IsOpener(s[i]) && !IsCloser(s[i])
  }

  /**
   * The scan for the end of `update(...)`: the first `)` or `}` at nesting
   * depth zero, where both kinds of bracket count for the depth.
   */
  function FindCloser(s: string, i: nat, nested: nat): (r: Option<nat>)
    requires i <= |s|
    ensures r.Some? ==> i <= r.value < |s| && IsCloser(s[r.value])
    decreases |s| - i
  {
    if i == |s| then None
    else if IsOpener(s[i]) then FindCloser(s, i + 1, nested + 1)
    else if IsCloser(s[i]) then (if nested == 0 then Some(i) else FindCloser(s, i + 1, nested - 1))
    else FindCloser(s, i + 1, nested)
  }

  /** The end of the `update(...)` group starting at `start`; `start` itself when no closer is found. */
  function UpdateEnd(s: string, start: nat): (e: nat)
    requires start <= |s|
    ensures start <= e <= |s|
  {
    match FindCloser(s, start, 0)
    case Some(e) => e
    case None => start
  }

  /** The scan passes over characters that are not brackets. */
  lemma {:induction false} FindCloserSkips(s: string, i: nat, k: nat, nested: nat)
    requires i + k <= |s|
    requires forall j :: i <= j < i + k ==> !IsOpener(s[j]) && !IsCloser(s[j])
    ensures FindCloser(s, i, nested) == FindCloser(s, i + k, nested)
    decreases k
  {
    if k > 0 {
      FindCloserSkips(s, i + 1, k - 1, nested);
    }
  }

  /** The loop of `parse_database_operations` that finds the end of `update(...)`. */
  method FindCloserLoop(s: string, start: nat) returns (endPos: nat)
    requires start <= |s|
    ensures endPos == UpdateEnd(s, start)
  {
    var nested: nat := 0;
    endPos := start;
    var i := start;
    while i < |s|
      invariant start <= i <= |s|
      invariant FindCloser(s, start, 0) == FindCloser(s, i, nested)
    {
      if IsOpener(s[i]) {
        nested := nested + 1;
      } else if IsCloser(s[i]) {
        if nested == 0 {
          endPos := i;
          return;
        }
        nested := nested - 1;
      }
      i := i + 1;
    }
  }

  /**
   * Splitting the `update(...)` content on the commas at brace depth zero
   * (only `{`/`}` count here, and the depth may go negative); a trailing
   * empty part is not kept.
   */
  function SplitTop(c: string, i: nat, partStart: nat, depth: int, acc: seq<string>): seq<string>
    requires partStart <= i <= |c|
    decreases |c| - i
  {
    if i == |c| then (if partStart < |c| then acc + [c[partStart..]] else acc)
    else if c[i] == '{' then SplitTop(c, i + 1, partStart, depth + 1, acc)
    else if c[i] == '}' then SplitTop(c, i + 1, partStart, depth - 1, acc)
    else if c[i] == ',' && depth == 0 then SplitTop(c, i + 1, i + 1, depth, acc + [c[partStart..i]])
    else SplitTop(c, i + 1, partStart, depth, acc)
  }

  function UpdateParts(c: string): seq<string> {
    SplitTop(c, 0, 0, 0, [])
  }

  /** The loop that splits the content of `update(...)` into parts. */
  method SplitTopLoop(c: string) returns (parts: seq<string>)
    ensures parts == UpdateParts(c)
  {
    parts := [];
    var partStart := 0;
    var depth := 0;
    var i := 0;
    while i < |c|
      invariant partStart <= i <= |c|
      invariant SplitTop(c, i, partStart, depth, parts) == UpdateParts(c)
    {
      if c[i] == '{' {
        depth := depth + 1;
      } else if c[i] == '}' {
        depth := depth - 1;
      } else if c[i] == ',' && depth == 0 {
        parts := parts + [c[partStart..i]];
        partStart := i + 1;
      }
      i := i + 1;
    }
    if partStart < |c| {
      parts := parts + [c[partStart..]];
    }
  }

  /** Scanning over braceless text, at a depth where its commas do not split, changes nothing. */
  lemma {:induction false} SplitTopSkips(c: string, i: nat, k: nat, partStart: nat, depth: int, acc: seq<string>)
    requires partStart <= i && i + k <= |c|
    requires forall j :: i <= j < i + k ==> c[j] != '{' && c[j] != '}' && (depth == 0 ==> c[j] != ',')
    ensures SplitTop(c, i, partStart, depth, acc) == SplitTop(c, i + k, partStart, depth, acc)
    decreases k
  {
    if k > 0 {
      SplitTopSkips(c, i + 1, k - 1, partStart, depth, acc);
    }
  }

  /**
   * One part of `update(...)`: `f{a,b}` gives filter `f` and the fields
   * between the first `{` and the last character; a part whose `{` is its
   * last character makes the slice bounds cross, which panics.
   */
  function UpdatePart(up: string): (r: Result<UpdateOperation, string>)
    ensures '{' !in up ==> r == Success(UpdateOperation(up, []))
    ensures r.Success? && '{' in up ==> '{' !in r.value.filterBy && r.value.filterBy + "{" <= up
  {
    match IndexOf(up, "{")
    case None =>
      assert '{' !in up by {
        forall j | 0 <= j < |up| ensures up[j] != '{' {
          assert !OccursAt(up, "{", j);
          assert up[j..j + 1] == [up[j]];
        }
      }
      Success(UpdateOperation(up, []))
    case Some(f) =>
      assert up[f] == '{' by { assert up[f..f + 1] == "{"; }
      assert '{' !in up[..f] by {
        forall j | 0 <= j < f ensures up[j] != '{' {
          assert !OccursAt(up, "{", j);
          assert up[j..j + 1] == [up[j]];
        }
      }
      assert up[..f] + "{" <= up by { assert up[..f + 1] == up[..f] + "{"; }
      if f + 1 <= |up| - 1 then Success(UpdateOperation(up[..f], Split(up[f + 1..|up| - 1], ',')))
      else Failure("slice index starts at " + NatToString(f + 1) + " but ends at " + NatToString(|up| - 1))
  }

  function UpdateOpsOf(parts: seq<string>): Result<seq<UpdateOperation>, string> {
    if parts == [] then Success([])
    else match UpdatePart(parts[0])
      case Failure(e) => Failure(e)
      case Success(u) =>
        match UpdateOpsOf(parts[1..])
        case Failure(e) => Failure(e)
        case Success(us) => Success([u] + us)
  }

  /** One part more of `UpdateOpsOf`, seen from position `k`. */
  lemma UpdateOpsAt(parts: seq<string>, k: nat)
    requires k < |parts|
    ensures UpdatePart(parts[k]).Failure? ==> UpdateOpsOf(parts[k..]) == Failure(UpdatePart(parts[k]).error)
    ensures UpdatePart(parts[k]).Success? && UpdateOpsOf(parts[k + 1..]).Failure?
            ==> UpdateOpsOf(parts[k..]) == UpdateOpsOf(parts[k + 1..])
    ensures UpdatePart(parts[k]).Success? && UpdateOpsOf(parts[k + 1..]).Success?
            ==> UpdateOpsOf(parts[k..]) == Success([UpdatePart(parts[k]).value] + UpdateOpsOf(parts[k + 1..]).value)
  {
    assert parts[k..][0] == parts[k] && parts[k..][1..] == parts[k + 1..];
  }

  /** The loop over the parts of `update(...)`. */
  method UpdateOpsLoop(parts: seq<string>) returns (r: Result<seq<UpdateOperation>, string>)
    ensures r == UpdateOpsOf(parts)
  {
    var us: seq<UpdateOperation> := [];
    var k := 0;
    assert parts[0..] == parts;
    assert UpdateOpsOf(parts).Success? ==> us + UpdateOpsOf(parts).value == UpdateOpsOf(parts).value;
    while k < |parts|
      invariant 0 <= k <= |parts|
      invariant UpdateOpsOf(parts[k..]).Failure? ==> UpdateOpsOf(parts) == UpdateOpsOf(parts[k..])
      invariant UpdateOpsOf(parts[k..]).Success? ==> UpdateOpsOf(parts) == Success(us + UpdateOpsOf(parts[k..]).value)
    {
      var u := UpdatePart(parts[k]);
      UpdateOpsAt(parts, k);
      if u.Failure? {
        return Failure(u.error);
      }
      if UpdateOpsOf(parts[k + 1..]).Success? {
        var rest := UpdateOpsOf(parts[k + 1..]).value;
        assert us + ([u.value] + rest) == (us + [u.value]) + rest;
      }
      us := us + [u.value];
      k := k + 1;
    }
    assert parts[k..] == [] && us + [] == us;
    return Success(us);
  }

  /** The end of a `get(...)`/`delete(...)` group: the next `)`, else the end of the string. */
  function GroupEnd(s: string, start: nat): (e: nat)
    requires start <= |s|
    ensures start <= e <= |s|
    ensures e < |s| ==> s[e] == ')'
    ensures forall j :: start <= j < e ==> s[j] != ')'
    decreases |s| - start
  {
    if start == |s| || s[start] == ')' then start else GroupEnd(s, start + 1)
  }

  /** The keywords the parser looks for. */
  const KwCreate: string := "create"
  const KwUpdate: string := "update("
  const KwDelete: string := "delete("
  const KwGet: string := "get("
  const KwGetAll: string := "get_all"

  /**
   * One turn of the loop of `parse_database_operations` at `pos`: the
   * position it moves to and the operations collected so far.
   */
  function Step(s: string, pos: nat, ops: Ops): (r: Result<(nat, Ops), string>)
    requires pos < |s|
    ensures r.Success? ==> pos < r.value.0
  {
    if At(s, pos, KwCreate) then Success((pos + 6, ops.(create := true)))
    else if At(s, pos, KwUpdate) then
      var end := UpdateEnd(s, pos + 7);
      match UpdateOpsOf(UpdateParts(s[pos + 7..end]))
      case Failure(e) => Failure(e)
      case Success(us) => Success((end + 1, ops.(updates := ops.updates + us)))
    else if At(s, pos, KwDelete) then
      var end := GroupEnd(s, pos + 7);
      Success((end + 1, ops.(deletes := Split(s[pos + 7..end], ','))))
    else if At(s, pos, KwGet) then
      var end := GroupEnd(s, pos + 4);
      Success((end + 1, ops.(gets := Split(s[pos + 4..end], ','))))
    else if At(s, pos, KwGetAll) then Success((pos + 7, ops.(getAll := true)))
    else Success((pos + 1, ops))
  }

  /** The parse from `pos` to the end of the string. */
  function ParseFrom(s: string, pos: nat, ops: Ops): Result<Ops, string>
    decreases if pos <= |s| then |s| - pos + 1 else 0
  {
    if pos >= |s| then Success(ops)
    else match Step(s, pos, ops)
      case Failure(e) => Failure(e)
      case Success((next, ops')) => ParseFrom(s, next, ops')
  }

  function Parse(attr: string): Result<Ops, string> {
    ParseFrom(RemoveSpaces(attr), 0, NoOps)
  }

  /** The body of the loop of `parse_database_operations`. */
  method StepLoop(s: string, pos: nat, ops: Ops) returns (r: Result<(nat, Ops), string>)
    requires pos < |s|
    ensures r == Step(s, pos, ops)
  {
    if At(s, pos, KwCreate) {
      r := Success((pos + 6, ops.(create := true)));
    } else if At(s, pos, KwUpdate) {
      var start := pos + 7;
      var end := FindCloserLoop(s, start);
      var parts := SplitTopLoop(s[start..end]);
      var us := UpdateOpsLoop(parts);
      if us.Failure? {
        return Failure(us.error);
      }
      r := Success((end + 1, ops.(updates := ops.updates + us.value)));
    } else if At(s, pos, KwDelete) {
      var end := GroupEnd(s, pos + 7);
      r := Success((end + 1, ops.(deletes := Split(s[pos + 7..end], ','))));
    } else if At(s, pos, KwGet) {
      var end := GroupEnd(s, pos + 4);
      r := Success((end + 1, ops.(gets := Split(s[pos + 4..end], ','))));
    } else if At(s, pos, KwGetAll) {
      r := Success((pos + 7, ops.(getAll := true)));
    } else {
      r := Success((pos + 1, ops));
    }
  }

  /** `parse_database_operations`. */
  method ParseDatabaseOperations(attr: string) returns (r: Result<Ops, string>)
    ensures r == Parse(attr)
  {
    var clean := RemoveSpaces(attr);
    var ops := NoOps;
    var pos := 0;
    while pos < |clean|
      invariant ParseFrom(clean, pos, ops) == Parse(attr)
      decreases |clean| - pos
    {
      var step := StepLoop(clean, pos, ops);
      if step.Failure? {
        return Failure(step.error);
      }
      pos, ops := step.value.0, step.value.1;
    }
    r := Success(ops);
  }

  /** Spaces are stripped first, so they never matter. */
  lemma ParseIgnoresSpaces(attr: string)
    ensures Parse(RemoveSpaces(attr)) == Parse(attr)
  {
    RemoveSpacesNoop(RemoveSpaces(attr));
  }

  /** A character that starts no keyword is skipped on its own. */
  lemma SkipsUnrecognised(s: string, pos: nat, ops: Ops)
    requires pos < |s| && s[pos] !in {'c', 'u', 'd', 'g'}
    ensures ParseFrom(s, pos, ops) == ParseFrom(s, pos + 1, ops)
  {
  }

  /**
   * Once set, the `create` and `get_all` flags stay set, and the update
   * operations only accumulate.
   */
  lemma {:induction false} ParseKeepsCollected(s: string, pos: nat, ops: Ops)
    ensures ParseFrom(s, pos, ops).Success? ==> (ops.create ==> ParseFrom(s, pos, ops).value.create)
    ensures ParseFrom(s, pos, ops).Success? ==> (ops.getAll ==> ParseFrom(s, pos, ops).value.getAll)
    ensures ParseFrom(s, pos, ops).Success? ==> ops.updates <= ParseFrom(s, pos, ops).value.updates
    decreases if pos <= |s| then |s| - pos + 1 else 0
  {
    if pos < |s| {
      match Step(s, pos, ops)
      case Failure(_) =>
      case Success((next, ops')) =>
        ParseKeepsCollected(s, next, ops');
    }
  }

  /** With no `create` anywhere in the string, the flag keeps its value. */
  lemma {:induction false} NoCreateKeepsFlag(s: string, pos: nat, ops: Ops)
    requires forall j: nat :: !At(s, j, KwCreate)
    ensures ParseFrom(s, pos, ops).Success? ==> ParseFrom(s, pos, ops).value.create == ops.create
    decreases if pos <= |s| then |s| - pos + 1 else 0
  {
    if pos < |s| {
      assert !At(s, pos, KwCreate);
      match Step(s, pos, ops)
      case Failure(_) =>
      case Success((next, ops')) =>
        NoCreateKeepsFlag(s, next, ops');
    }
  }

  /** With no `get_all` anywhere in the string, the flag keeps its value. */
  lemma {:induction false} NoGetAllKeepsFlag(s: string, pos: nat, ops: Ops)
    requires forall j: nat :: !At(s, j, KwGetAll)
    ensures ParseFrom(s, pos, ops).Success? ==> ParseFrom(s, pos, ops).value.getAll == ops.getAll
    decreases if pos <= |s| then |s| - pos + 1 else 0
  {
    if pos < |s| {
      assert !At(s, pos, KwGetAll);
      match Step(s, pos, ops)
      case Failure(_) =>
      case Success((next, ops')) =>
        NoGetAllKeepsFlag(s, next, ops');
    }
  }

  /** `create` sets the flag whatever follows it. */
  lemma CreateSetsFlag(s: string, pos: nat, ops: Ops)
    requires pos < |s| && At(s, pos, KwCreate)
    ensures ParseFrom(s, pos, ops).Success? ==> ParseFrom(s, pos, ops).value.create
  {
    ParseKeepsCollected(s, pos + 6, ops.(create := true));
  }

  lemma {:induction false} GroupEndIs(s: string, start: nat, e: nat)
    requires start <= e < |s| && s[e] == ')'
    requires forall j :: start <= j < e ==> s[j] != ')'
    ensures GroupEnd(s, start) == e
    decreases e - start
  {
    if start < e {
      GroupEndIs(s, start + 1, e);
    }
  }

  /** A keyword followed by a group's text and its closing parenthesis. */
  lemma GroupAt(s: string, pos: nat, kw: string, fields: string)
    requires kw != [] && At(s, pos, kw + fields + ")")
    ensures pos < |s| && At(s, pos, kw) && s[pos] == kw[0]
    ensures pos + |kw| + |fields| < |s|
    ensures s[pos + |kw|..pos + |kw| + |fields|] == fields && s[pos + |kw| + |fields|] == ')'
  {
    var pat := kw + fields + ")";
    AtChars(s, pos, pat);
    assert s[pos] == pat[0];
    assert s[pos..][..|kw|] == pat[..|kw|] == kw;
    var start := pos + |kw|;
    forall j | start <= j < start + |fields| ensures s[j] == fields[j - start] {
      assert s[j] == pat[j - pos];
    }
    assert s[start + |fields|] == pat[|pat| - 1];
  }

  lemma GetStep(s: string, pos: nat, ops: Ops, fields: string)
    requires pos < |s| && At(s, pos, KwGet) && s[pos] == 'g'
    requires pos + 4 + |fields| < |s| && s[pos + 4..pos + 4 + |fields|] == fields
    requires GroupEnd(s, pos + 4) == pos + 4 + |fields|
    ensures ParseFrom(s, pos, ops) == ParseFrom(s, pos + |fields| + 5, ops.(gets := Split(fields, ',')))
  {
    assert Step(s, pos, ops) == Success((pos + |fields| + 5, ops.(gets := Split(fields, ',')))) by {
      assert !At(s, pos, KwCreate) && !At(s, pos, KwUpdate) && !At(s, pos, KwDelete);
    }
  }

  lemma DeleteStep(s: string, pos: nat, ops: Ops, fields: string)
    requires pos < |s| && At(s, pos, KwDelete) && s[pos] == 'd'
    requires pos + 7 + |fields| < |s| && s[pos + 7..pos + 7 + |fields|] == fields
    requires GroupEnd(s, pos + 7) == pos + 7 + |fields|
    ensures ParseFrom(s, pos, ops) == ParseFrom(s, pos + |fields| + 8, ops.(deletes := Split(fields, ',')))
  {
    assert Step(s, pos, ops) == Success((pos + |fields| + 8, ops.(deletes := Split(fields, ',')))) by {
      assert !At(s, pos, KwCreate) && !At(s, pos, KwUpdate);
    }
  }

  /** A `get(...)` group replaces the getters collected so far by its own fields. */
  lemma GetGroupReplaces(s: string, pos: nat, ops: Ops, fields: string)
    requires At(s, pos, KwGet + fields + ")") && ')' !in fields
    ensures ParseFrom(s, pos, ops) == ParseFrom(s, pos + |fields| + 5, ops.(gets := Split(fields, ',')))
  {
    GroupAt(s, pos, KwGet, fields);
    var start := pos + 4;
    GroupEndIs(s, start, start + |fields|);
    GetStep(s, pos, ops, fields);
  }

  /** A `delete(...)` group replaces the deleters collected so far by its own fields. */
  lemma DeleteGroupReplaces(s: string, pos: nat, ops: Ops, fields: string)
    requires At(s, pos, KwDelete + fields + ")") && ')' !in fields
    ensures ParseFrom(s, pos, ops) == ParseFrom(s, pos + |fields| + 8, ops.(deletes := Split(fields, ',')))
  {
    GroupAt(s, pos, KwDelete, fields);
    var start := pos + 7;
    GroupEndIs(s, start, start + |fields|);
    DeleteStep(s, pos, ops, fields);
  }

  /** The content of `update(f)` with a plain `f` is the single operation filtered by `f`. */
  lemma PlainUpdateContent(f: string)
    requires f != [] && Plain(f)
    ensures UpdateOpsOf(UpdateParts(f)) == Success([UpdateOperation(f, [])])
  {
    SplitTopSkips(f, 0, |f|, 0, 0, []);
    assert f[0..] == f;
    assert UpdateParts(f) == [f];
    assert '{' !in f by {
      forall j | 0 <= j < |f| ensures f[j] != '{' {
        assert !IsOpener(f[j]);
      }
    }
    var one := [f];
    assert one[0] == f && one[1..] == [];
    assert UpdatePart(one[0]) == Success(UpdateOperation(f, []));
    assert UpdateOpsOf(one[1..]) == Success([]);
    assert one != [] && [UpdateOperation(f, [])] + [] == [UpdateOperation(f, [])];
  }

  /** `update(f)` yields one update operation filtered by `f` with no fields. */
  lemma UpdateWithoutFields(s: string, pos: nat, ops: Ops, f: string)
    requires At(s, pos, KwUpdate + f + ")") && f != [] && Plain(f)
    ensures ParseFrom(s, pos, ops) == ParseFrom(s, pos + |f| + 8, ops.(updates := ops.updates + [UpdateOperation(f, [])]))
  {
    assert UpdateEnd(s, pos + 7) == pos + 7 + |f| by {
      GroupAt(s, pos, KwUpdate, f);
      FindCloserSkips(s, pos + 7, |f|, 0);
    }
    PlainUpdateContent(f);
    UpdateStep(s, pos, ops, f, [UpdateOperation(f, [])]);
  }

  predicate NoBrackets(s: string) {
    forall i :: 0 <= i < |s| ==> !IsOpener(s[i]) && !IsCloser(s[i])
  }

  /** No bracket appears in plain fields joined by commas. */
  lemma {:induction false} JoinHasNoBrackets(fields: seq<string>)
    requires forall i :: 0 <= i < |fields| ==> Plain(fields[i])
    ensures NoBrackets(Join(fields, ","))
    decreases |fields|
  {
    if |fields| > 1 {
      JoinHasNoBrackets(fields[1..]);
      var t := Join(fields[1..], ",");
      var j0 := Join(fields, ",");
      assert j0 == fields[0] + "," + t;
      forall j | 0 <= j < |j0| ensures !IsOpener(j0[j]) && !IsCloser(j0[j]) {
        if j < |fields[0]| {
          assert j0[j] == fields[0][j];
        } else if j > |fields[0]| {
          assert j0[j] == t[j - |fields[0]| - 1];
        }
      }
    } else if |fields| == 1 {
      assert Join(fields, ",") == fields[0];
    }
  }

  /** The content `f{a,b,...}` of `update(...)` is a single part: its commas are inside braces. */
  lemma BracedContentIsOnePart(f: string, j: string)
    requires Plain(f) && NoBrackets(j)
    ensures UpdateParts(f + "{" + j + "}") == [f + "{" + j + "}"]
  {
    var c := f + "{" + j + "}";
    var n := |f|;
    assert |c| == n + |j| + 2;
    assert forall k :: 0 <= k < n ==> c[k] == f[k];
    SplitTopSkips(c, 0, n, 0, 0, []);
    assert c[n] == '{';
    assert SplitTop(c, n, 0, 0, []) == SplitTop(c, n + 1, 0, 1, []);
    assert forall k :: n + 1 <= k < n + 1 + |j| ==> c[k] == j[k - n - 1];
    SplitTopSkips(c, n + 1, |j|, 0, 1, []);
    assert c[n + 1 + |j|] == '}';
    assert SplitTop(c, n + 1 + |j|, 0, 1, []) == SplitTop(c, |c|, 0, 0, []);
    assert c[0..] == c;
    assert SplitTop(c, |c|, 0, 0, []) == [c];
  }

  /** The first `{` of `f{...` is the one after `f`. */
  lemma FirstBrace(f: string, rest: string)
    requires Plain(f)
    ensures IndexOf(f + "{" + rest, "{") == Some(|f|)
  {
    var part := f + "{" + rest;
    var n := |f|;
    assert OccursAt(part, "{", n) by {
      assert part[n] == '{';
      assert part[n..n + 1] == [part[n]];
    }
    forall k: nat | k < n ensures !OccursAt(part, "{", k) {
      assert part[k..k + 1] == [f[k]];
    }
    var r := IndexOf(part, "{");
    assert r.Some?;
    assert r.value == n;
  }

  /** The part `f{a,b,...}` becomes filter `f` with the fields `a`, `b`, .... */
  lemma BracedPart(f: string, fields: seq<string>)
    requires Plain(f) && |fields| >= 1 && forall i :: 0 <= i < |fields| ==> Plain(fields[i])
    ensures UpdatePart(f + "{" + Join(fields, ",") + "}") == Success(UpdateOperation(f, fields))
  {
    BracedFields(f, Join(fields, ","));
    PlainFieldsSplit(fields);
  }

  /** The part `f{j}` becomes filter `f` with the pieces of `j` between commas. */
  lemma BracedFields(f: string, j: string)
    requires Plain(f)
    ensures UpdatePart(f + "{" + j + "}") == Success(UpdateOperation(f, Split(j, ',')))
  {
    var part := f + "{" + j + "}";
    var n := |f|;
    assert n + 1 <= |part| - 1;
    assert UpdatePart(part) == Success(UpdateOperation(part[..n], Split(part[n + 1..|part| - 1], ','))) by {
      assert IndexOf(part, "{") == Some(n) by {
        assert part == f + "{" + (j + "}");
        FirstBrace(f, j + "}");
      }
      UpdatePartBraced(part, n);
    }
    Enclosed(f, '{', j, '}');
  }

  /** The two pieces around and inside a bracketed part. */
  lemma Enclosed<T>(a: seq<T>, open: T, b: seq<T>, close: T)
    ensures var p := a + [open] + b + [close];
      p[..|a|] == a && p[|a| + 1..|p| - 1] == b
  {
    var p := a + [open] + b + [close];
    assert p == a + ([open] + b + [close]);
  }

  /** Plain fields joined by ',' split back into themselves. */
  lemma PlainFieldsSplit(fields: seq<string>)
    requires |fields| >= 1 && forall i :: 0 <= i < |fields| ==> Plain(fields[i])
    ensures Split(Join(fields, ","), ',') == fields
  {
    forall i | 0 <= i < |fields| ensures ',' !in fields[i] {
      assert Plain(fields[i]);
    }
    SplitJoin(fields, ',');
  }

  lemma UpdatePartBraced(up: string, f: nat)
    requires IndexOf(up, "{") == Some(f) && f + 1 <= |up| - 1
    ensures UpdatePart(up) == Success(UpdateOperation(up[..f], Split(up[f + 1..|up| - 1], ',')))
  {
  }

  lemma OnePart(part: string, u: UpdateOperation)
    requires UpdatePart(part) == Success(u)
    ensures UpdateOpsOf([part]) == Success([u])
  {
    var one := [part];
    assert one[0] == part && one[1..] == [];
    assert UpdateOpsOf(one[1..]) == Success([]);
    assert [u] + [] == [u];
  }

  /** The group `f{...})` ends at its `)`: brackets inside braces are balanced. */
  lemma BracedCloser(s: string, start: nat, f: string, j: string)
    requires Plain(f) && NoBrackets(j)
    requires start + |f| + |j| + 3 <= |s| && s[start..start + |f| + |j| + 3] == f + "{" + j + "})"
    ensures UpdateEnd(s, start) == start + |f| + |j| + 2
  {
    var c := f + "{" + j + "})";
    var n := |f|;
    assert forall k :: start <= k < start + |c| ==> s[k] == c[k - start] by {
      forall k | start <= k < start + |c| ensures s[k] == c[k - start] {
        assert s[start..start + |c|][k - start] == s[k];
      }
    }
    assert forall k :: start <= k < start + n ==> s[k] == f[k - start];
    FindCloserSkips(s, start, n, 0);
    assert s[start + n] == '{';
    assert forall k :: start + n + 1 <= k < start + n + 1 + |j| ==> s[k] == j[k - start - n - 1];
    FindCloserSkips(s, start + n + 1, |j|, 1);
    assert s[start + n + 1 + |j|] == '}';
    assert s[start + n + 2 + |j|] == ')';
    assert FindCloser(s, start + n + 1 + |j|, 1) == FindCloser(s, start + n + 2 + |j|, 0);
  }

  /** `update(f{a,b,...})` yields one update operation filtered by `f` that sets `a`, `b`, .... */
  lemma UpdateWithFields(s: string, pos: nat, ops: Ops, f: string, fields: seq<string>)
    requires Plain(f) && |fields| >= 1 && forall i :: 0 <= i < |fields| ==> Plain(fields[i])
    requires At(s, pos, KwUpdate + (f + "{" + Join(fields, ",") + "}") + ")")
    ensures ParseFrom(s, pos, ops)
         == ParseFrom(s, pos + |f| + |Join(fields, ",")| + 10,
                      ops.(updates := ops.updates + [UpdateOperation(f, fields)]))
  {
    var part := f + "{" + Join(fields, ",") + "}";
    assert UpdateEnd(s, pos + 7) == pos + 7 + |part| by {
      GroupAt(s, pos, KwUpdate, part);
      BracedUpdateEnd(s, pos + 7, f, fields);
    }
    assert |part| + 8 == |f| + |Join(fields, ",")| + 10;
    BracedUpdateContent(f, fields);
    UpdateStep(s, pos, ops, part, [UpdateOperation(f, fields)]);
  }

  lemma BracedUpdateEnd(s: string, start: nat, f: string, fields: seq<string>)
    requires Plain(f) && |fields| >= 1 && forall i :: 0 <= i < |fields| ==> Plain(fields[i])
    requires start + |f| + |Join(fields, ",")| + 2 < |s|
    requires s[start..start + |f| + |Join(fields, ",")| + 2] == f + "{" + Join(fields, ",") + "}"
    requires s[start + |f| + |Join(fields, ",")| + 2] == ')'
    ensures UpdateEnd(s, start) == start + |f| + |Join(fields, ",")| + 2
  {
    var j := Join(fields, ",");
    JoinHasNoBrackets(fields);
    var m := start + |f| + |j| + 2;
    assert s[start..m + 1] == s[start..m] + [s[m]];
    assert s[start..start + |f| + |j| + 3] == f + "{" + j + "})";
    BracedCloser(s, start, f, j);
  }

  lemma BracedUpdateContent(f: string, fields: seq<string>)
    requires Plain(f) && |fields| >= 1 && forall i :: 0 <= i < |fields| ==> Plain(fields[i])
    ensures UpdateOpsOf(UpdateParts(f + "{" + Join(fields, ",") + "}")) == Success([UpdateOperation(f, fields)])
  {
    var j := Join(fields, ",");
    var part := f + "{" + j + "}";
    JoinHasNoBrackets(fields);
    BracedContentIsOnePart(f, j);
    BracedPart(f, fields);
    OnePart(part, UpdateOperation(f, fields));
  }

  lemma UpdateStep(s: string, pos: nat, ops: Ops, part: string, us: seq<UpdateOperation>)
    requires At(s, pos, KwUpdate + part + ")")
    requires UpdateEnd(s, pos + 7) == pos + 7 + |part| && UpdateOpsOf(UpdateParts(part)) == Success(us)
    ensures ParseFrom(s, pos, ops) == ParseFrom(s, pos + |part| + 8, ops.(updates := ops.updates + us))
  {
    var end := pos + 7 + |part|;
    assert pos < |s| && At(s, pos, KwUpdate) && s[pos] == 'u' && s[pos + 7..end] == part by {
      GroupAt(s, pos, KwUpdate, part);
    }
    assert Step(s, pos, ops) == Success((end + 1, ops.(updates := ops.updates + us))) by {
      assert !At(s, pos, KwCreate);
    }
  }

  /** The name of the method generated for one update operation. */
  function UpdateMethodName(u: UpdateOperation): (n: string)
    ensures "update_" <= n
    ensures |n| >= |"_by_" + u.filterBy| && n[|n| - |"_by_" + u.filterBy|..] == "_by_" + u.filterBy
  {
    var tail := "_by_" + u.filterBy;
    var n :=
      if u.updateFields == [] then "update" + tail
      else if |u.updateFields| == 1 then "update_" + u.updateFields[0] + tail
      else "update_" + Join(u.updateFields, "_and_") + tail;
    assert n[|n| - |tail|..] == tail;
    n
  }

  /** With fields, the update method is named after the fields joined by `_and_`. */
  lemma UpdateMethodNameFields(u: UpdateOperation)
    requires |u.updateFields| >= 1
    ensures UpdateMethodName(u) == "update_" + Join(u.updateFields, "_and_") + "_by_" + u.filterBy
  {
  }

  function Prefixed(prefix: string, fields: seq<string>): (r: seq<string>)
    ensures |r| == |fields|
    ensures forall i :: 0 <= i < |fields| ==> r[i] == prefix + fields[i]
  {
    if fields == [] then [] else [prefix + fields[0]] + Prefixed(prefix, fields[1..])
  }

  function UpdateNames(us: seq<UpdateOperation>): (r: seq<string>)
    ensures |r| == |us|
    ensures forall i :: 0 <= i < |us| ==> r[i] == UpdateMethodName(us[i])
  {
    if us == [] then [] else [UpdateMethodName(us[0])] + UpdateNames(us[1..])
  }

  /** The generated methods, in the order `generate_methods` emits them. */
  function MethodNames(ops: Ops): (names: seq<string>)
    ensures |names| == (if ops.create then 1 else 0) + (if ops.getAll then 1 else 0)
                       + |ops.gets| + |ops.updates| + |ops.deletes|
  {
    (if ops.create then ["create"] else [])
    + (if ops.getAll then ["get_all"] else [])
    + Prefixed("get_by_", ops.gets)
    + UpdateNames(ops.updates)
    + Prefixed("delete_by_", ops.deletes)
  }

  lemma PrefixedLacks(prefix: string, fields: seq<string>, name: string)
    requires !(prefix <= name)
    ensures name !in Prefixed(prefix, fields)
  {
    forall i | 0 <= i < |fields| ensures Prefixed(prefix, fields)[i] != name {
      assert prefix <= Prefixed(prefix, fields)[i];
    }
  }

  /** One method is generated per requested operation, and `create` only when requested. */
  lemma MethodNamesCover(ops: Ops)
    ensures ops.getAll ==> "get_all" in MethodNames(ops)
    ensures forall i :: 0 <= i < |ops.gets| ==> "get_by_" + ops.gets[i] in MethodNames(ops)
    ensures forall i :: 0 <= i < |ops.deletes| ==> "delete_by_" + ops.deletes[i] in MethodNames(ops)
    ensures forall i :: 0 <= i < |ops.updates| ==> UpdateMethodName(ops.updates[i]) in MethodNames(ops)
  {
    var c := if ops.create then ["create"] else [];
    var a := if ops.getAll then ["get_all"] else [];
    var g := Prefixed("get_by_", ops.gets);
    var u := UpdateNames(ops.updates);
    var d := Prefixed("delete_by_", ops.deletes);
    var names := MethodNames(ops);
    assert names == c + a + g + u + d;
    forall i | 0 <= i < |ops.gets| ensures "get_by_" + ops.gets[i] in names {
      assert g[i] in g;
    }
    forall i | 0 <= i < |ops.deletes| ensures "delete_by_" + ops.deletes[i] in names {
      assert d[i] in d;
    }
    forall i | 0 <= i < |ops.updates| ensures UpdateMethodName(ops.updates[i]) in names {
      assert u[i] in u;
    }
  }

  /** The `create` method is generated exactly when it was requested. */
  lemma CreateOnlyWhenRequested(ops: Ops)
    ensures ops.create <==> "create" in MethodNames(ops)
  {
    var c := if ops.create then ["create"] else [];
    var a := if ops.getAll then ["get_all"] else [];
    var g := Prefixed("get_by_", ops.gets);
    var u := UpdateNames(ops.updates);
    var d := Prefixed("delete_by_", ops.deletes);
    assert MethodNames(ops) == c + a + g + u + d;
    PrefixedLacks("get_by_", ops.gets, "create");
    PrefixedLacks("delete_by_", ops.deletes, "create");
    assert "create" !in u by {
      forall i | 0 <= i < |u| ensures u[i] != "create" {
        assert "update_" <= u[i];
      }
    }
  }

  /** A character that may start an identifier; Rust also admits other Unicode letters, refused here. */
  predicate IsIdentStart(c: char) { 'a' <= c <= 'z' || 'A' <= c <= 'Z' || c == '_' }

  predicate IsIdentContinue(c: char) { IsIdentStart(c) || '0' <= c <= '9' }

  predicate IdentChars(s: string) { forall i :: 0 <= i < |s| ==> IsIdentContinue(s[i]) }

  /** Text that `format_ident!` accepts: non-empty, starting with a letter or `_`. */
  predicate IsIdent(s: string) { s != [] && IsIdentStart(s[0]) && IdentChars(s) }

  /** Every field that `generate_methods` turns into an identifier is one. */
  predicate FieldsAreIdents(ops: Ops) {
    (forall i :: 0 <= i < |ops.gets| ==> IsIdent(ops.gets[i]))
    && (forall i :: 0 <= i < |ops.deletes| ==> IsIdent(ops.deletes[i]))
    && (forall i :: 0 <= i < |ops.updates| ==> UpdateIsIdents(ops.updates[i]))
  }

  predicate UpdateIsIdents(u: UpdateOperation) {
    IsIdent(u.filterBy) && forall j :: 0 <= j < |u.updateFields| ==> IsIdent(u.updateFields[j])
  }

  lemma IdentCharsConcat(a: string, b: string)
    requires IdentChars(a) && IdentChars(b)
    ensures IdentChars(a + b)
  {
    forall i | 0 <= i < |a + b| ensures IsIdentContinue((a + b)[i]) {
      if i < |a| { assert (a + b)[i] == a[i]; } else { assert (a + b)[i] == b[i - |a|]; }
    }
  }

  lemma {:induction false} JoinIdentChars(parts: seq<string>, sep: string)
    requires IdentChars(sep)
    requires forall i :: 0 <= i < |parts| ==> IdentChars(parts[i])
    ensures IdentChars(Join(parts, sep))
    decreases |parts|
  {
    if |parts| > 1 {
      JoinIdentChars(parts[1..], sep);
      IdentCharsConcat(parts[0], sep);
      IdentCharsConcat(parts[0] + sep, Join(parts[1..], sep));
    }
  }

  /** The name of an update whose filter and fields are identifiers is one. */
  lemma UpdateNameIsIdent(u: UpdateOperation)
    requires UpdateIsIdents(u)
    ensures IsIdent(UpdateMethodName(u))
  {
    var n := UpdateMethodName(u);
    assert IdentChars("_by_" + u.filterBy) by { IdentCharsConcat("_by_", u.filterBy); }
    if u.updateFields == [] {
      IdentCharsConcat("update", "_by_" + u.filterBy);
    } else {
      JoinIdentChars(u.updateFields, "_and_");
      UpdateMethodNameFields(u);
      IdentCharsConcat("update_", Join(u.updateFields, "_and_"));
      IdentCharsConcat("update_" + Join(u.updateFields, "_and_"), "_by_" + u.filterBy);
    }
    assert n[0] == 'u';
  }

  lemma PrefixedAreIdents(prefix: string, fields: seq<string>)
    requires IsIdent(prefix)
    requires forall i :: 0 <= i < |fields| ==> IsIdent(fields[i])
    ensures forall i :: 0 <= i < |fields| ==> IsIdent(Prefixed(prefix, fields)[i])
  {
    forall i | 0 <= i < |fields| ensures IsIdent(Prefixed(prefix, fields)[i]) {
      IdentCharsConcat(prefix, fields[i]);
      assert (prefix + fields[i])[0] == prefix[0];
    }
  }

  lemma AllIdents(a: seq<string>, b: seq<string>)
    requires forall i :: 0 <= i < |a| ==> IsIdent(a[i])
    requires forall i :: 0 <= i < |b| ==> IsIdent(b[i])
    ensures forall i :: 0 <= i < |a + b| ==> IsIdent((a + b)[i])
  {
    forall i | 0 <= i < |a + b| ensures IsIdent((a + b)[i]) {
      if i < |a| { assert (a + b)[i] == a[i]; } else { assert (a + b)[i] == b[i - |a|]; }
    }
  }

  /**
   * `generate_methods`: the generated method names, or the panic that `format_ident!` raises
   * when a getter, deleter, update filter or update field is not an identifier.
   */
  function GenerateMethods(ops: Ops): (r: Result<seq<string>, string>)
    ensures r.Success? <==> FieldsAreIdents(ops)
    ensures r.Success? ==> r.value == MethodNames(ops)
    ensures r.Success? ==> forall i :: 0 <= i < |r.value| ==> IsIdent(r.value[i])
  {
    if FieldsAreIdents(ops) then
      var c := if ops.create then ["create"] else [];
      var a := if ops.getAll then ["get_all"] else [];
      var g := Prefixed("get_by_", ops.gets);
      var u := UpdateNames(ops.updates);
      var d := Prefixed("delete_by_", ops.deletes);
      assert forall i :: 0 <= i < |c + a| ==> IsIdent((c + a)[i]);
      assert forall i :: 0 <= i < |g| ==> IsIdent(g[i]) by { PrefixedAreIdents("get_by_", ops.gets); }
      assert forall i :: 0 <= i < |d| ==> IsIdent(d[i]) by { PrefixedAreIdents("delete_by_", ops.deletes); }
      assert forall i :: 0 <= i < |u| ==> IsIdent(u[i]) by {
        forall i | 0 <= i < |u| ensures IsIdent(u[i]) { UpdateNameIsIdent(ops.updates[i]); }
      }
      AllIdents(c + a, g);
      AllIdents(c + a + g, u);
      AllIdents(c + a + g + u, d);
      Success(MethodNames(ops))
    else
      Failure("format_ident!: not a valid identifier")
  }

  /** `get(1)`, a number rather than a name, makes the macro panic. */
  lemma NumericGetterPanics()
    ensures GenerateMethods(NoOps.(gets := ["1"])).Failure?
  {
    assert !IsIdent("1");
  }

  /** The Diesel attribute of a struct, reduced to what `extract_table_name` reads. */
  datatype Meta = MetaList(tokens: string) | MetaOther
  datatype Attribute = Attribute(isDiesel: bool, meta: Meta)

  /** `trim_matches('"')`. */
  function TrimQuotes(s: string): (r: string)
    ensures |r| <= |s|
    ensures r != [] ==> r[0] != '"' && r[|r| - 1] != '"'
    decreases |s|
  {
    if s == [] then s
    else if s[0] == '"' then TrimQuotes(s[1..])
    else if s[|s| - 1] == '"' then TrimQuotes(s[..|s| - 1])
    else s
  }

  /** The first pass: a `table_name = "x"` whose value is quoted. */
  function QuotedTableName(tokens: string): Option<string> {
    if !Contains(tokens, "table_name") then None
    else
      var parts := Split(tokens, '=');
      if |parts| <= 1 then None
      else
        var v := Trim(parts[1]);
        if v != [] && v[0] == '"' && v[|v| - 1] == '"' then Some(TrimQuotes(v)) else None
  }

  /** The second pass: the text after `table_name`'s `=`, up to a comma. */
  function LooseTableName(tokens: string): Option<string> {
    match IndexOf(tokens, "table_name")
    case None => None
    case Some(p) =>
      var rest := tokens[p..];
      match IndexOf(rest, "=")
      case None => None
      case Some(q) =>
        var trimmed := Trim(rest[q + 1..]);
        match IndexOf(trimmed, ",")
        case Some(e) => Some(Trim(trimmed[..e]))
        case None => Some(trimmed)
  }

  /** What the first pass reads from one attribute. */
  function QuotedIn(a: Attribute): Option<string> {
    if a.isDiesel && a.meta.MetaList? then QuotedTableName(a.meta.tokens) else None
  }

  /** What the second pass reads from one attribute. */
  function LooseIn(a: Attribute): Option<string> {
    if a.isDiesel && a.meta.MetaList? then LooseTableName(a.meta.tokens) else None
  }

  /** The first value `read` finds, scanning the attributes in order. */
  function FirstFound(attrs: seq<Attribute>, read: Attribute -> Option<string>): (r: Option<string>)
    ensures r.Some? ==> exists i :: 0 <= i < |attrs| && read(attrs[i]) == r
    ensures r.None? <==> forall i :: 0 <= i < |attrs| ==> read(attrs[i]).None?
  {
    if attrs == [] then None
    else match read(attrs[0])
      case Some(t) => Some(t)
      case None => FirstFound(attrs[1..], read)
  }

  function FirstPass(attrs: seq<Attribute>): Option<string> {
    FirstFound(attrs, QuotedIn)
  }

  function SecondPass(attrs: seq<Attribute>): Option<string> {
    FirstFound(attrs, LooseIn)
  }

  /** `extract_table_name`: the quoted form first, then the loose form, else a panic. */
  function ExtractTableName(attrs: seq<Attribute>): (r: Result<string, string>)
    ensures r.Failure? <==> FirstPass(attrs).None? && SecondPass(attrs).None?
    ensures FirstPass(attrs).Some? ==> r == Success(FirstPass(attrs).value)
    ensures FirstPass(attrs).None? && SecondPass(attrs).Some? ==> r == Success(SecondPass(attrs).value)
    ensures r.Failure? ==> r.error == "Not found table name"
  {
    match FirstPass(attrs)
    case Some(t) => Success(t)
    case None =>
      match SecondPass(attrs)
      case Some(t) => Success(t)
      case None => Failure("Not found table name")
  }

  /** Without a Diesel attribute the macro panics. */
  lemma NoDieselAttributePanics(attrs: seq<Attribute>)
    requires forall i :: 0 <= i < |attrs| ==> !attrs[i].isDiesel
    ensures ExtractTableName(attrs) == Failure("Not found table name")
  {
    assert forall i :: 0 <= i < |attrs| ==> QuotedIn(attrs[i]).None? && LooseIn(attrs[i]).None?;
  }

  /** Attributes from which nothing is read are passed over. */
  lemma {:induction false} SkipsUnread(other: seq<Attribute>, attrs: seq<Attribute>, read: Attribute -> Option<string>)
    requires forall i :: 0 <= i < |other| ==> read(other[i]).None?
    ensures FirstFound(other + attrs, read) == FirstFound(attrs, read)
    decreases |other|
  {
    if other != [] {
      SkipsUnread(other[1..], attrs, read);
      assert (other + attrs)[0] == other[0];
      assert (other + attrs)[1..] == other[1..] + attrs;
    } else {
      assert other + attrs == attrs;
    }
  }

  /** Attributes other than Diesel's are passed over. */
  lemma OtherAttributesIgnored(other: seq<Attribute>, attrs: seq<Attribute>)
    requires forall i :: 0 <= i < |other| ==> !other[i].isDiesel
    ensures ExtractTableName(other + attrs) == ExtractTableName(attrs)
  {
    SkipsUnread(other, attrs, QuotedIn);
    SkipsUnread(other, attrs, LooseIn);
  }

  lemma TrimAfterSpace(x: string)
    requires x != [] && !IsSpace(x[0]) && !IsSpace(x[|x| - 1])
    ensures Trim(" " + x) == x
  {
    var s := " " + x;
    assert s[0] == ' ';
    assert s[1..] == x;
    TrimNoop(x);
  }

  lemma SplitAtEquals(v: string)
    requires '=' !in v
    ensures Split("table_name = " + v, '=') == ["table_name ", " " + v]
  {
    assert "table_name = " + v == "table_name " + ['='] + (" " + v);
    assert '=' !in " " + v;
    SplitPrefix("table_name ", '=', " " + v);
    SplitNoSep(" " + v, '=');
  }

  lemma TrimQuotesWrapped(t: string)
    requires '"' !in t
    ensures TrimQuotes("\"" + t + "\"") == t
  {
    var v := "\"" + t + "\"";
    assert v[1..] == t + "\"";
    if t != [] {
      assert (t + "\"")[0] == t[0];
      assert (t + "\"")[..|t|] == t;
      assert TrimQuotes(t) == t;
    } else {
      assert v == "\"\"";
    }
  }

  /** `table_name = "t"`, with `t` free of quotes and `=`, names table `t`. */
  lemma QuotedForm(t: string)
    requires '"' !in t && '=' !in t
    ensures QuotedTableName("table_name = \"" + t + "\"") == Some(t)
  {
    var v := "\"" + t + "\"";
    var tokens := "table_name = " + v;
    assert tokens == "table_name = \"" + t + "\"";
    assert "table_name" <= tokens;
    SplitAtEquals(v);
    TrimAfterSpace(v);
    TrimQuotesWrapped(t);
  }

  lemma EqualsAtEleven(v: string)
    ensures IndexOf("table_name = " + v, "=") == Some(11)
  {
    var tokens := "table_name = " + v;
    assert OccursAt(tokens, "=", 11) by { assert tokens[11..12] == "="; }
    forall k: nat | k < 11 ensures !OccursAt(tokens, "=", k) {
      assert tokens[k..k + 1] == [tokens[k]];
    }
  }

  lemma NoCommaFound(v: string)
    requires ',' !in v
    ensures IndexOf(v, ",") == None
  {
    forall k: nat ensures !OccursAt(v, ",", k) {
      if k + 1 <= |v| {
        assert v[k..k + 1] == [v[k]];
      }
    }
  }

  /** `table_name = v`, with `v` trimmed and free of commas, names table `v`. */
  lemma LooseForm(v: string)
    requires v != [] && !IsSpace(v[0]) && !IsSpace(v[|v| - 1]) && ',' !in v
    ensures LooseTableName("table_name = " + v) == Some(v)
  {
    var tokens := "table_name = " + v;
    assert "table_name" <= tokens;
    assert tokens[0..] == tokens;
    EqualsAtEleven(v);
    assert tokens[12..] == " " + v;
    TrimAfterSpace(v);
    NoCommaFound(v);
  }
}
