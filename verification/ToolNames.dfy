/**
 The registry's name catalogue and its "did you mean" lookup.

 Three tool tables may share names; `List` merges and sorts their keys, and `NearestName`
 scans that list for the best score.
 */
module ToolNames {
  import opened Options
  import EditDistance
  import Utf8

  // ---------------------------------------------------------------- name order

  /** Lexicographic order by code point. */
  predicate Less(a: string, b: string) {
    b != "" && (a == "" || a[0] < b[0] || (a[0] == b[0] && Less(a[1..], b[1..])))
  }

  lemma {:induction false} LessTransitive(a: string, b: string, c: string)
    requires Less(a, b) && Less(b, c)
    ensures Less(a, c)
  {
    if a != "" && a[0] == b[0] && b[0] == c[0] {
      LessTransitive(a[1..], b[1..], c[1..]);
    }
  }

  lemma {:induction false} LessTotal(a: string, b: string)
    ensures Less(a, b) || a == b || Less(b, a)
    ensures !(Less(a, b) && Less(b, a)) && !Less(a, a)
  {
    if a != "" && b != "" {
      LessTotal(a[1..], b[1..]);
      LessTotal(a[1..], a[1..]);
      if a[0] == b[0] && a[1..] == b[1..] {
        assert a == [a[0]] + a[1..] && b == [b[0]] + b[1..];
      }
    } else if a != "" {
      LessTotal(a[1..], a[1..]);
    }
  }

  lemma {:induction false} LessIsLexicographic(a: string, b: string)
    ensures Less(a, b) <==> Utf8.LexLess(Utf8.Codes(a), Utf8.Codes(b))
  {
    if a != "" && b != "" {
      assert Utf8.Codes(a)[1..] == Utf8.Codes(a[1..]) && Utf8.Codes(b)[1..] == Utf8.Codes(b[1..]);
      LessIsLexicographic(a[1..], b[1..]);
    }
  }

  /** The order is that of the UTF-8 encodings, by which strings are sorted. */
  lemma {:induction false} LessIsByteOrder(a: string, b: string)
    ensures Less(a, b) <==> Utf8.LexLess(Utf8.Encode(Utf8.Codes(a)), Utf8.Encode(Utf8.Codes(b)))
  {
    LessIsLexicographic(a, b);
    Utf8.ByteOrderIsTextOrder(Utf8.Codes(a), Utf8.Codes(b));
  }

  ghost predicate StrictlySorted(names: seq<string>) {
    forall i, j :: 0 <= i < j < |names| ==> Less(names[i], names[j])
  }

  lemma {:induction false} HasMember(names: seq<string>)
    requires names != []
    ensures exists n :: n in names
  {
    assert names[0] in names;
  }

  /** A strictly sorted list is determined by its elements. */
  lemma {:induction false} SortedListUnique(a: seq<string>, b: seq<string>)
    requires StrictlySorted(a) && StrictlySorted(b)
    requires forall n :: n in a <==> n in b
    ensures a == b
  {
    if a == [] {
      if b != [] {
        HasMember(b);
        assert false;
      }
    } else {
      assert a[0] in a;
      assert a[0] in b && b != [] && b[0] in b;
      LeastComesFirst(a, b);
      LeastComesFirst(b, a);
      LessTotal(a[0], b[0]);
      forall n
        ensures n in a[1..] <==> n in b[1..]
      {
        TailMembers(a, n);
        TailMembers(b, n);
      }
      SortedListUnique(a[1..], b[1..]);
      assert a == [a[0]] + a[1..] && b == [b[0]] + b[1..];
    }
  }

  lemma {:induction false} LeastComesFirst(a: seq<string>, b: seq<string>)
    requires StrictlySorted(a) && a != [] && b != [] && b[0] in a
    ensures a[0] == b[0] || Less(a[0], b[0])
  {
    var i :| 0 <= i < |a| && a[i] == b[0];
  }

  lemma {:induction false} TailMembers(a: seq<string>, n: string)
    requires StrictlySorted(a) && a != []
    ensures n in a[1..] <==> n in a && n != a[0]
  {
    LessTotal(n, a[0]);
    if n in a && n != a[0] {
      var i :| 0 <= i < |a| && a[i] == n;
      assert a[1..][i - 1] == n;
    }
    if n in a[1..] {
      var i :| 0 <= i < |a[1..]| && a[1..][i] == n;
      assert a[i + 1] == n && Less(a[0], a[i + 1]);
    }
  }

  /** Inserts `n` before the first greater name. */
  function InsertSorted(n: string, names: seq<string>): (r: seq<string>)
    requires StrictlySorted(names) && n !in names
    ensures StrictlySorted(r)
    ensures forall m :: m in r <==> m == n || m in names
  {
    if names == [] then [n]
    else if Less(n, names[0]) then
      assert forall j :: 0 <= j < |names| ==> Less(n, names[j]) by {
        forall j | 0 < j < |names| ensures Less(n, names[j]) { LessTransitive(n, names[0], names[j]); }
      }
      [n] + names
    else
      LessTotal(n, names[0]);
      assert names == [names[0]] + names[1..];
      var rest := InsertSorted(n, names[1..]);
      assert forall m :: m in rest ==> Less(names[0], m) by {
        forall m | m in rest ensures Less(names[0], m) { TailMembers(names, m); }
      }
      [names[0]] + rest
  }

  /** `names.sort()` on duplicate-free names. */
  function Sort(names: seq<string>): (r: seq<string>)
    requires forall i, j :: 0 <= i < j < |names| ==> names[i] != names[j]
    ensures StrictlySorted(r)
    ensures forall n :: n in r <==> n in names
  {
    if names == [] then []
    else
      assert names == [names[0]] + names[1..];
      InsertSorted(names[0], Sort(names[1..]))
  }

  // ---------------------------------------------------------------- scores

  /** The length that the lookup's guards go by: bytes, not characters. */
  function Utf8Length(s: string): nat {
    |Utf8.Encode(Utf8.Codes(s))|
  }

  predicate Contains(haystack: string, needle: string) {
    needle <= haystack || (haystack != "" && Contains(haystack[1..], needle))
  }

  lemma {:induction false} NotAtFront(haystack: string, before: string, needle: string, after: string)
    requires haystack == before + needle + after && !(needle <= haystack)
    ensures before != ""
  {
    assert before == "" ==> haystack == needle + after;
  }

  /** `Contains` finds a needle exactly when it stands somewhere in the haystack. */
  lemma {:induction false} ContainsIff(haystack: string, needle: string)
    ensures Contains(haystack, needle) <==> exists before, after :: haystack == before + needle + after
  {
    if needle <= haystack {
      assert haystack == "" + needle + haystack[|needle|..];
    } else if haystack != "" {
      ContainsIff(haystack[1..], needle);
      if Contains(haystack[1..], needle) {
        var before, after :| haystack[1..] == before + needle + after;
        assert haystack == ([haystack[0]] + before) + needle + after;
      }
      forall before, after | haystack == before + needle + after
        ensures Contains(haystack[1..], needle)
      {
        NotAtFront(haystack, before, needle, after);
        assert haystack[1..] == before[1..] + needle + after;
      }
    }
  }

  type Lowering = string -> string

  /** How far `name` is from `query`; lower is better and nothing means rejected. */
  function Score(lower: Lowering, query: string, name: string): Option<nat> {
    var q, n := lower(query), lower(name);
    if q == n then Some(0)
    else if (Utf8Length(q) >= 3 && Contains(n, q)) || (Utf8Length(n) >= 3 && Contains(q, n)) then Some(1)
    else
      var d := EditDistance.Distance(q, n);
      if d > 3 then None else Some(d)
  }

  // ---------------------------------------------------------------- the guard on short names

  /** The score as documented: the substring guards count characters. */
  function DocumentedScore(lower: Lowering, query: string, name: string): Option<nat> {
    var q, n := lower(query), lower(name);
    if q == n then Some(0)
    else if (|q| >= 3 && Contains(n, q)) || (|n| >= 3 && Contains(q, n)) then Some(1)
    else
      var d := EditDistance.Distance(q, n);
      if d > 3 then None else Some(d)
  }

  /** Fewer than three characters that take three bytes or more. */
  predicate ShortButWide(s: string) {
    |s| < 3 && Utf8Length(s) >= 3
  }

  lemma {:induction false} BytesAtLeastChars(s: string)
    ensures |s| <= Utf8Length(s)
  {
    if s != "" {
      assert Utf8.Codes(s)[1..] == Utf8.Codes(s[1..]);
      BytesAtLeastChars(s[1..]);
    }
  }

  /** Counting bytes and counting characters give the same guard exactly on strings that are not short but wide. */
  lemma {:induction false} GuardsAgreeIff(s: string)
    ensures (Utf8Length(s) >= 3 <==> |s| >= 3) <==> (|s| >= 3 || Utf8Length(s) < 3)
    ensures |s| >= 3 ==> Utf8Length(s) >= 3
  {
    BytesAtLeastChars(s);
  }

  lemma {:induction false} ContainedIsShorter(haystack: string, needle: string)
    requires Contains(haystack, needle)
    ensures |needle| <= |haystack| && (|needle| == |haystack| ==> needle == haystack)
  {
    if !(needle <= haystack) {
      ContainedIsShorter(haystack[1..], needle);
    }
  }

  /** One string is short but wide and stands in the other, longer one, from which it is not one edit away. */
  predicate GuardMatters(q: string, n: string) {
    && ((ShortButWide(q) && Contains(n, q)) || (ShortButWide(n) && Contains(q, n)))
    && q != n && EditDistance.Distance(q, n) != 1
  }

  /** The computed score is the documented one exactly when the difference between bytes and characters does not matter. */
  lemma {:induction false} ScoreIsDocumentedIff(lower: Lowering, query: string, name: string)
    ensures Score(lower, query, name) == DocumentedScore(lower, query, name) <==> !GuardMatters(lower(query), lower(name))
  {
    var q, n := lower(query), lower(name);
    GuardsAgreeIff(q);
    GuardsAgreeIff(n);
    if Contains(n, q) {
      ContainedIsShorter(n, q);
    }
    if Contains(q, n) {
      ContainedIsShorter(q, n);
    }
    EditDistance.DistanceZeroIff(q, n);
  }

  /** One three-byte character is enough for a substring match. */
  lemma {:induction false} OneWideCharacterMatches()
    ensures Score((s: string) => s, "\U{20AC}", "a\U{20AC}bcd") == Some(1)
    ensures DocumentedScore((s: string) => s, "\U{20AC}", "a\U{20AC}bcd") == None
  {
    var q, n := "\U{20AC}", "a\U{20AC}bcd";
    assert Utf8.Codes(q) == [0x20AC] && Utf8.Encode([0x20AC]) == Utf8.Enc(0x20AC);
    assert q <= n[1..] && Contains(n[1..], q) && Contains(n, q);
    EditDistance.PrefixAtLeastDifference(q, n, 1, 5);
  }

  /** `name` has the least score of all names, and is the first of those in name order. */
  ghost predicate IsNearest(lower: Lowering, query: string, names: set<string>, name: string) {
    && name in names && Score(lower, query, name).Some?
    && forall n :: n in names && Score(lower, query, n).Some? ==>
         var best, other := Score(lower, query, name).value, Score(lower, query, n).value;
         best < other || (best == other && (n == name || Less(name, n)))
  }

  /** What the search knows once it has seen the names in `seen`, which are in order. */
  ghost predicate IsBest(lower: Lowering, query: string, seen: seq<string>, best: Option<(nat, string)>) {
    match best
    case None => forall n :: n in seen ==> Score(lower, query, n).None?
    case Some((least, name)) =>
      && name in seen && Score(lower, query, name) == Some(least)
      && forall n :: n in seen && Score(lower, query, n).Some? ==>
           least < Score(lower, query, n).value || (least == Score(lower, query, n).value && (n == name || Less(name, n)))
  }

  /** The next name takes over only with a smaller score: of equal ones the first in order stays. */
  lemma {:induction false} BestGoesOn(lower: Lowering, query: string, names: seq<string>, i: nat, best: Option<(nat, string)>)
    requires StrictlySorted(names) && i < |names| && IsBest(lower, query, names[..i], best)
    ensures var score := Score(lower, query, names[i]);
            IsBest(lower, query, names[..i + 1],
                   if score.Some? && (best.None? || score.value < best.value.0) then Some((score.value, names[i])) else best)
  {
    assert names[..i + 1] == names[..i] + [names[i]];
    forall n | n in names[..i]
      ensures Less(n, names[i])
    {
    }
  }

  lemma {:induction false} BestIsNearest(lower: Lowering, query: string, seen: seq<string>, names: set<string>,
                                         best: Option<(nat, string)>)
    requires IsBest(lower, query, seen, best) && forall n :: n in seen <==> n in names
    ensures best.None? ==> forall n :: n in names ==> Score(lower, query, n).None?
    ensures best.Some? ==> IsNearest(lower, query, names, best.value.1)
  {
  }

  lemma {:induction false} NearestUnique(lower: Lowering, query: string, names: set<string>, a: string, b: string)
    requires IsNearest(lower, query, names, a) && IsNearest(lower, query, names, b)
    ensures a == b
  {
    LessTotal(a, b);
  }

  // ---------------------------------------------------------------- the registry

  /** The three tool tables; what a tool does plays no part here. */
  class Registry<Tool> {
    var io: map<string, Tool>
    var engine: map<string, Tool>
    var runtimeIo: map<string, Tool>

    constructor ()
      ensures Names() == {}
    {
      io, engine, runtimeIo := map[], map[], map[];
    }

    function Names(): set<string>
      reads this
    {
      io.Keys + engine.Keys + runtimeIo.Keys
    }

    method RegisterIo(name: string, tool: Tool)
      modifies this`io
      ensures io == old(io)[name := tool] && Names() == old(Names()) + {name}
    {
      io := io[name := tool];
    }

    method RegisterEngine(name: string, tool: Tool)
      modifies this`engine
      ensures engine == old(engine)[name := tool] && Names() == old(Names()) + {name}
    {
      engine := engine[name := tool];
    }

    method RegisterIoDynamic(name: string, tool: Tool)
      modifies this`runtimeIo
      ensures runtimeIo == old(runtimeIo)[name := tool] && Names() == old(Names()) + {name}
    {
      runtimeIo := runtimeIo[name := tool];
    }

    /** A name in several tables is the static IO tool first, then the dynamic one, then the engine one. */
    function Lookup(name: string): (tool: Option<Tool>)
      reads this
      ensures tool.Some? <==> name in Names()
      ensures name in io ==> tool == Some(io[name])
      ensures name !in io && name in runtimeIo ==> tool == Some(runtimeIo[name])
      ensures name !in io && name !in runtimeIo && name in engine ==> tool == Some(engine[name])
    {
      if name in io then Some(io[name])
      else if name in runtimeIo then Some(runtimeIo[name])
      else if name in engine then Some(engine[name])
      else None
    }

    /** Removes every dynamic tool whose name starts with `prefix`, and nothing else. */
    method RemoveByPrefix(prefix: string) returns (removed: set<string>)
      modifies this`runtimeIo
      ensures removed == set n | n in old(runtimeIo).Keys && prefix <= n
      ensures runtimeIo == map n | n in old(runtimeIo) && !(prefix <= n) :: old(runtimeIo)[n]
      ensures forall n :: n in io || n in engine || !(prefix <= n) ==> (n in Names() <==> n in old(Names()))
    {
      removed := set n | n in runtimeIo.Keys && prefix <= n;
      runtimeIo := runtimeIo - removed;
    }

    /** Appends the names of one table that have not been seen, in whatever order the table yields them. */
    static method Collect(keys: set<string>, names: seq<string>) returns (r: seq<string>)
      requires forall i, j :: 0 <= i < j < |names| ==> names[i] != names[j]
      ensures forall i, j :: 0 <= i < j < |r| ==> r[i] != r[j]
      ensures forall n :: n in r <==> n in names || n in keys
    {
      r := names;
      var todo := keys;
      while todo != {}
        invariant todo <= keys
        invariant forall i, j :: 0 <= i < j < |r| ==> r[i] != r[j]
        invariant forall n :: n in r <==> n in names || n in keys - todo
        decreases todo
      {
        var k :| k in todo;
        todo := todo - {k};
        if k !in r {
          r := r + [k];
        }
      }
    }

    /** Every registered name once, sorted. */
    method List() returns (names: seq<string>)
      ensures StrictlySorted(names)
      ensures forall n :: n in names <==> n in Names()
    {
      names := Collect(io.Keys, []);
      names := Collect(engine.Keys, names);
      names := Collect(runtimeIo.Keys, names);
      names := Sort(names);
    }

    /** The name closest to `query`, or nothing when the query is empty or every name is rejected. */
    method NearestName(lower: Lowering, query: string) returns (r: Option<string>)
      ensures r.None? <==> query == "" || forall n :: n in Names() ==> Score(lower, query, n).None?
      ensures r.Some? ==> IsNearest(lower, query, Names(), r.value)
    {
      if query == "" {
        return None;
      }
      var qLower := lower(query);
      var best: Option<(nat, string)> := None;
      var names := List();
      var i := 0;
      while i < |names|
        invariant 0 <= i <= |names|
        invariant IsBest(lower, query, names[..i], best)
      {
        var name := names[i];
        var score := NameScore(lower, qLower, name);
        BestGoesOn(lower, query, names, i, best);
        if score.Some? && (best.None? || score.value < best.value.0) {
          best := Some((score.value, name));
        }
        i := i + 1;
      }
      assert names[..i] == names;
      BestIsNearest(lower, query, names, Names(), best);
      return if best.Some? then Some(best.value.1) else None;
    }

    static method NameScore(lower: Lowering, qLower: string, name: string) returns (score: Option<nat>)
      ensures forall query :: lower(query) == qLower ==> score == Score(lower, query, name)
    {
      var nLower := lower(name);
      if qLower == nLower {
        return Some(0);
      }
      if (Utf8Length(qLower) >= 3 && Contains(nLower, qLower)) || (Utf8Length(nLower) >= 3 && Contains(qLower, nLower)) {
        return Some(1);
      }
      var d := EditDistance.Levenshtein(qLower, nLower);
      if d > 3 {
        return None;
      }
      return Some(d);
    }

    /** The tool count: dynamic tools are counted when no static IO tool has their name. */
    function Len(): nat
      reads this
    {
      |io| + |engine| + |runtimeIo.Keys - io.Keys|
    }

    /** The count is the length of the list exactly when no engine tool shares its name with an IO tool. */
    lemma {:induction false} LenCountsNamesIff()
      ensures Len() == |Names()| <==> engine.Keys !! io.Keys + runtimeIo.Keys
    {
      assert |io| == |io.Keys| && |engine| == |engine.Keys|;
      CountIff(io.Keys, engine.Keys, runtimeIo.Keys);
    }
  }

  /** An engine tool that shares its name with an I/O tool is listed once and counted twice. */
  method SharedNameCountsTwice<Tool>(name: string, ioTool: Tool, engineTool: Tool) returns (r: Registry<Tool>)
    ensures r.Names() == {name} && r.Len() == 2
  {
    r := new Registry<Tool>();
    r.RegisterIo(name, ioTool);
    r.RegisterEngine(name, engineTool);
    assert |r.io| == |r.io.Keys| && |r.engine| == |r.engine.Keys|;
  }

  lemma {:induction false} CountIff(i: set<string>, e: set<string>, r: set<string>)
    ensures |i| + |e| + |r - i| == |i + e + r| <==> e !! i + r
  {
    var ios := i + (r - i);
    assert |ios| == |i| + |r - i|;
    assert ios + e == i + e + r && ios == i + r;
    assert |ios + e| == |ios| + |e| - |ios * e|;
    assert |ios * e| == 0 <==> ios * e == {};
  }
}
