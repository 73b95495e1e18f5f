/**
 The edit distance behind "did you mean" suggestions.

 `Row` is the distance table, one row from the row above.  `Levenshtein` computes it in place
 with two rolling rows.  The last cell is then shown to be the least number of
 single-character edits, at any positions and in any order, that turn one string into the other.
 */
module EditDistance {

  function Min(a: nat, b: nat): nat {
    if a <= b then a else b
  }

  function Cost(a: char, b: char): nat {
    if a == b then 0 else 1
  }

  /** A cell of the table from its left, upper and diagonal neighbours. */
  function Cell(left: nat, above: nat, diagonal: nat, cost: nat): nat {
    Min(Min(left + 1, above + 1), diagonal + cost)
  }

  /** The first `n + 1` cells of the row under `above`, for the character `c`. */
  function NextRow(above: seq<nat>, c: char, b: string, n: nat): (row: seq<nat>)
    requires |above| == |b| + 1 && n <= |b|
    ensures |row| == n + 1
  {
    if n == 0 then [above[0] + 1]
    else
      var row := NextRow(above, c, b, n - 1);
      row + [Cell(row[n - 1], above[n], above[n - 1], Cost(c, b[n - 1]))]
  }

  /** Row `i` of the table: distances from the first `i` characters of `a` to every prefix of `b`. */
  function Row(a: string, b: string, i: nat): (row: seq<nat>)
    requires i <= |a|
    ensures |row| == |b| + 1
  {
    if i == 0 then seq(|b| + 1, j => j) else NextRow(Row(a, b, i - 1), a[i - 1], b, |b|)
  }

  function PrefixDistance(a: string, b: string, i: nat, j: nat): nat
    requires i <= |a| && j <= |b|
  {
    Row(a, b, i)[j]
  }

  function Distance(a: string, b: string): nat {
    PrefixDistance(a, b, |a|, |b|)
  }

  // ---------------------------------------------------------------- the two-row computation

  lemma {:induction false} NextRowCells(above: seq<nat>, c: char, b: string, n: nat, j: nat)
    requires |above| == |b| + 1 && j <= n <= |b|
    ensures var row := NextRow(above, c, b, n);
            row[j] == if j == 0 then above[0] + 1 else Cell(row[j - 1], above[j], above[j - 1], Cost(c, b[j - 1]))
  {
    if j < n {
      NextRowCells(above, c, b, n - 1, j);
    }
  }

  lemma {:induction false} LeftColumn(a: string, b: string, i: nat)
    requires i <= |a|
    ensures PrefixDistance(a, b, i, 0) == i
  {
    if i > 0 {
      LeftColumn(a, b, i - 1);
      NextRowCells(Row(a, b, i - 1), a[i - 1], b, |b|, 0);
    }
  }

  /** The textbook recurrence. */
  lemma {:induction false} Recurrence(a: string, b: string, i: nat, j: nat)
    requires i <= |a| && j <= |b|
    ensures PrefixDistance(a, b, i, j) ==
              if i == 0 then j
              else if j == 0 then i
              else Cell(PrefixDistance(a, b, i, j - 1), PrefixDistance(a, b, i - 1, j),
                        PrefixDistance(a, b, i - 1, j - 1), Cost(a[i - 1], b[j - 1]))
  {
    LeftColumn(a, b, i);
    if i > 0 && j > 0 {
      NextRowCells(Row(a, b, i - 1), a[i - 1], b, |b|, j);
    }
  }

  /** Fills `curr` with the row under `prev`. */
  method FillRow(a: string, b: string, i: nat, prev: array<nat>, curr: array<nat>)
    requires 0 < i <= |a| && prev.Length == curr.Length == |b| + 1 && prev != curr
    requires prev[..] == Row(a, b, i - 1)
    modifies curr
    ensures curr[..] == Row(a, b, i)
  {
    ghost var above := prev[..];
    LeftColumn(a, b, i - 1);
    curr[0] := i;
    var j := 1;
    assert curr[..1] == NextRow(above, a[i - 1], b, 0);
    while j <= |b|
      invariant 1 <= j <= |b| + 1
      invariant curr[..j] == NextRow(above, a[i - 1], b, j - 1)
      invariant prev[..] == above
    {
      var cost := if a[i - 1] == b[j - 1] then 0 else 1;
      ghost var filled := curr[..j];
      curr[j] := Min(Min(curr[j - 1] + 1, prev[j] + 1), prev[j - 1] + cost);
      RowGrows(filled, above, a[i - 1], b, j, curr[..j + 1]);
      j := j + 1;
    }
    assert curr[..] == curr[..|b| + 1];
  }

  lemma {:induction false} RowGrows(filled: seq<nat>, above: seq<nat>, c: char, b: string, j: nat, grown: seq<nat>)
    requires 0 < j <= |b| && |above| == |b| + 1 && filled == NextRow(above, c, b, j - 1)
    requires |grown| == j + 1 && grown[..j] == filled
    requires grown[j] == Cell(filled[j - 1], above[j], above[j - 1], Cost(c, b[j - 1]))
    ensures grown == NextRow(above, c, b, j)
  {
    assert grown == grown[..j] + [grown[j]];
  }

  method Levenshtein(a: string, b: string) returns (d: nat)
    ensures d == Distance(a, b)
  {
    if a == b {
      DistanceZeroIff(a, b);
      return 0;
    }
    if a == "" {
      return |b|;
    }
    if b == "" {
      LeftColumn(a, b, |a|);
      return |a|;
    }
    d := LastCell(a, b);
  }

  /** The rolling rows: `prev` starts as the top row and the two are swapped after each row. */
  method LastCell(a: string, b: string) returns (d: nat)
    ensures d == Distance(a, b)
  {
    var prev, curr := new nat[|b| + 1](j => j), new nat[|b| + 1](_ => 0);
    var i := 1;
    while i <= |a|
      invariant 1 <= i <= |a| + 1
      invariant fresh(prev) && fresh(curr) && prev != curr && prev.Length == curr.Length == |b| + 1
      invariant prev[..] == Row(a, b, i - 1)
    {
      FillRow(a, b, i, prev, curr);
      prev, curr := curr, prev;
      i := i + 1;
    }
    return prev[|b|];
  }

  // ---------------------------------------------------------------- the distance is a metric

  lemma {:induction false} PrefixZeroIff(a: string, b: string, i: nat, j: nat)
    requires i <= |a| && j <= |b|
    ensures PrefixDistance(a, b, i, j) == 0 <==> a[..i] == b[..j]
    decreases i
  {
    Recurrence(a, b, i, j);
    if i > 0 && j > 0 {
      PrefixZeroIff(a, b, i - 1, j - 1);
      assert a[..i] == a[..i - 1] + [a[i - 1]] && b[..j] == b[..j - 1] + [b[j - 1]];
      assert a[..i][..i - 1] == a[..i - 1] && b[..j][..j - 1] == b[..j - 1];
      assert a[..i][i - 1] == a[i - 1] && b[..j][j - 1] == b[j - 1];
    }
  }

  lemma {:induction false} DistanceZeroIff(a: string, b: string)
    ensures Distance(a, b) == 0 <==> a == b
  {
    PrefixZeroIff(a, b, |a|, |b|);
    assert a[..|a|] == a && b[..|b|] == b;
  }

  lemma {:induction false} PrefixSymmetric(a: string, b: string, i: nat, j: nat)
    requires i <= |a| && j <= |b|
    ensures PrefixDistance(a, b, i, j) == PrefixDistance(b, a, j, i)
    decreases i + j
  {
    Recurrence(a, b, i, j);
    Recurrence(b, a, j, i);
    if i > 0 && j > 0 {
      PrefixSymmetric(a, b, i, j - 1);
      PrefixSymmetric(a, b, i - 1, j);
      PrefixSymmetric(a, b, i - 1, j - 1);
    }
  }

  lemma {:induction false} DistanceSymmetric(a: string, b: string)
    ensures Distance(a, b) == Distance(b, a)
  {
    PrefixSymmetric(a, b, |a|, |b|);
  }

  lemma {:induction false} PrefixAtMostLengths(a: string, b: string, i: nat, j: nat)
    requires i <= |a| && j <= |b|
    ensures PrefixDistance(a, b, i, j) <= i + j
    decreases i + j
  {
    Recurrence(a, b, i, j);
    if i > 0 && j > 0 {
      PrefixAtMostLengths(a, b, i - 1, j);
    }
  }

  lemma {:induction false} PrefixAtLeastDifference(a: string, b: string, i: nat, j: nat)
    requires i <= |a| && j <= |b|
    ensures j <= i + PrefixDistance(a, b, i, j) && i <= j + PrefixDistance(a, b, i, j)
    decreases i + j
  {
    Recurrence(a, b, i, j);
    if i > 0 && j > 0 {
      PrefixAtLeastDifference(a, b, i, j - 1);
      PrefixAtLeastDifference(a, b, i - 1, j);
      PrefixAtLeastDifference(a, b, i - 1, j - 1);
    }
  }

  /** One step inside the matrix, from the six smaller cases. */
  lemma {:induction false} TriangleStep(a: string, b: string, c: string, i: nat, j: nat, k: nat)
    requires 0 < i <= |a| && 0 < j <= |b| && 0 < k <= |c|
    requires PrefixDistance(a, c, i - 1, k) <= PrefixDistance(a, b, i - 1, j) + PrefixDistance(b, c, j, k)
    requires PrefixDistance(a, c, i, k - 1) <= PrefixDistance(a, b, i, j) + PrefixDistance(b, c, j, k - 1)
    requires PrefixDistance(a, c, i, k) <= PrefixDistance(a, b, i, j - 1) + PrefixDistance(b, c, j - 1, k)
    requires PrefixDistance(a, c, i, k - 1) <= PrefixDistance(a, b, i, j - 1) + PrefixDistance(b, c, j - 1, k - 1)
    requires PrefixDistance(a, c, i - 1, k) <= PrefixDistance(a, b, i - 1, j - 1) + PrefixDistance(b, c, j - 1, k)
    requires PrefixDistance(a, c, i - 1, k - 1) <= PrefixDistance(a, b, i - 1, j - 1) + PrefixDistance(b, c, j - 1, k - 1)
    ensures PrefixDistance(a, c, i, k) <= PrefixDistance(a, b, i, j) + PrefixDistance(b, c, j, k)
  {
    Recurrence(a, c, i, k);
    Recurrence(a, b, i, j);
    Recurrence(b, c, j, k);
  }

  lemma {:induction false} PrefixTriangle(a: string, b: string, c: string, i: nat, j: nat, k: nat)
    requires i <= |a| && j <= |b| && k <= |c|
    ensures PrefixDistance(a, c, i, k) <= PrefixDistance(a, b, i, j) + PrefixDistance(b, c, j, k)
    decreases i + j + k
  {
    if j == 0 {
      Recurrence(a, b, i, j);
      Recurrence(b, c, j, k);
      PrefixAtMostLengths(a, c, i, k);
    } else if i == 0 {
      Recurrence(a, c, i, k);
      Recurrence(a, b, i, j);
      PrefixAtLeastDifference(b, c, j, k);
    } else if k == 0 {
      Recurrence(a, c, i, k);
      Recurrence(b, c, j, k);
      PrefixAtLeastDifference(a, b, i, j);
    } else {
      PrefixTriangle(a, b, c, i - 1, j, k);
      PrefixTriangle(a, b, c, i, j, k - 1);
      PrefixTriangle(a, b, c, i, j - 1, k);
      PrefixTriangle(a, b, c, i, j - 1, k - 1);
      PrefixTriangle(a, b, c, i - 1, j - 1, k);
      PrefixTriangle(a, b, c, i - 1, j - 1, k - 1);
      TriangleStep(a, b, c, i, j, k);
    }
  }

  lemma {:induction false} DistanceTriangle(a: string, b: string, c: string)
    ensures Distance(a, c) <= Distance(a, b) + Distance(b, c)
  {
    PrefixTriangle(a, b, c, |a|, |b|, |c|);
  }

  // ---------------------------------------------------------------- edits

  /** One single-character edit, at any position. */
  datatype Edit = Insert(at: nat, c: char) | Delete(at: nat) | Substitute(at: nat, c: char)

  predicate Applies(e: Edit, s: string) {
    if e.Insert? then e.at <= |s| else e.at < |s|
  }

  function Apply(e: Edit, s: string): string
    requires Applies(e, s)
  {
    match e
    case Insert(i, c) => s[..i] + [c] + s[i..]
    case Delete(i) => s[..i] + s[i + 1..]
    case Substitute(i, c) => s[..i] + [c] + s[i + 1..]
  }

  /** Performing `script` in order turns `a` into `b`. */
  predicate Turns(script: seq<Edit>, a: string, b: string) {
    if script == [] then a == b
    else Applies(script[0], a) && Turns(script[1..], Apply(script[0], a), b)
  }

  /** Along a common suffix the distance does not grow. */
  lemma {:induction false} CommonSuffix(a: string, b: string, i: nat, j: nat, n: nat)
    requires i + n <= |a| && j + n <= |b| && a[i..i + n] == b[j..j + n]
    ensures PrefixDistance(a, b, i + n, j + n) <= PrefixDistance(a, b, i, j)
    decreases n
  {
    if n > 0 {
      assert a[i..i + n][..n - 1] == a[i..i + n - 1] && b[j..j + n][..n - 1] == b[j..j + n - 1];
      assert a[i..i + n][n - 1] == a[i + n - 1] && b[j..j + n][n - 1] == b[j + n - 1];
      CommonSuffix(a, b, i, j, n - 1);
      Recurrence(a, b, i + n, j + n);
    }
  }

  lemma {:induction false} OffDiagonal(s: string, t: string, i: nat, si: nat, ti: nat)
    requires i <= si <= i + 1 && i <= ti <= i + 1 && si <= |s| && ti <= |t| && s[..i] == t[..i]
    ensures PrefixDistance(s, t, si, ti) <= 1
  {
    PrefixZeroIff(s, t, i, i);
    Recurrence(s, t, si, ti);
    Recurrence(s, t, i, i);
  }

  /** Strings that differ in at most one character between a common prefix and a common suffix. */
  lemma {:induction false} OneApart(s: string, t: string, i: nat, si: nat, ti: nat)
    requires i <= si <= i + 1 && i <= ti <= i + 1 && si <= |s| && ti <= |t|
    requires s[..i] == t[..i] && s[si..] == t[ti..]
    ensures Distance(s, t) <= 1
  {
    OffDiagonal(s, t, i, si, ti);
    var n := |s| - si;
    assert s[si..si + n] == s[si..] && t[ti..ti + n] == t[ti..];
    CommonSuffix(s, t, si, ti, n);
  }

  /** One edit moves a string by a distance of at most one. */
  lemma {:induction false} EditMovesByOne(e: Edit, s: string)
    requires Applies(e, s)
    ensures Distance(s, Apply(e, s)) <= 1
  {
    var i, t := e.at, Apply(e, s);
    var si, ti := if e.Insert? then i else i + 1, if e.Delete? then i else i + 1;
    assert s[..i] == t[..i] && s[si..] == t[ti..];
    OneApart(s, t, i, si, ti);
  }

  /** No script is shorter than the distance. */
  lemma {:induction false} NoShorterScript(script: seq<Edit>, a: string, b: string)
    requires Turns(script, a, b)
    ensures Distance(a, b) <= |script|
    decreases |script|
  {
    if script == [] {
      DistanceZeroIff(a, b);
    } else {
      var mid := Apply(script[0], a);
      EditMovesByOne(script[0], a);
      NoShorterScript(script[1..], mid, b);
      DistanceTriangle(a, mid, b);
    }
  }

  lemma {:induction false} ApplyBefore(e: Edit, a: string, suffix: string)
    requires Applies(e, a)
    ensures Applies(e, a + suffix) && Apply(e, a + suffix) == Apply(e, a) + suffix
  {
    assert (a + suffix)[..e.at] == a[..e.at] && (a + suffix)[e.at..] == a[e.at..] + suffix;
    assert !e.Insert? ==> (a + suffix)[e.at + 1..] == a[e.at + 1..] + suffix;
  }

  /** Edits of `a` work the same when `suffix` follows. */
  lemma {:induction false} TurnsBefore(script: seq<Edit>, a: string, b: string, suffix: string)
    requires Turns(script, a, b)
    ensures Turns(script, a + suffix, b + suffix)
    decreases |script|
  {
    if script != [] {
      var e := script[0];
      ApplyBefore(e, a, suffix);
      TurnsBefore(script[1..], Apply(e, a), b, suffix);
    }
  }

  lemma {:induction false} FirstEditTurns(e: Edit, rest: seq<Edit>, a: string, b: string)
    requires Applies(e, a) && Turns(rest, Apply(e, a), b)
    ensures Turns([e] + rest, a, b)
  {
    assert ([e] + rest)[1..] == rest;
  }

  ghost predicate TurnsIn(n: nat, a: string, b: string) {
    exists script :: Turns(script, a, b) && |script| == n
  }

  lemma {:induction false} InsertAtEnd(a: string, last: char)
    ensures Apply(Insert(|a|, last), a) == a + [last]
  {
    assert a[..|a|] == a && a[|a|..] == "";
  }

  lemma {:induction false} InsertLast(n: nat, a: string, ib: string, last: char, b: string)
    requires b == ib + [last] && TurnsIn(n, a, ib)
    ensures TurnsIn(n + 1, a, b)
  {
    var rest :| Turns(rest, a, ib) && |rest| == n;
    TurnsBefore(rest, a, ib, [last]);
    InsertAtEnd(a, last);
    FirstEditTurns(Insert(|a|, last), rest, a, b);
  }

  lemma {:induction false} DeleteLast(n: nat, ia: string, last: char, a: string, b: string)
    requires a == ia + [last] && TurnsIn(n, ia, b)
    ensures TurnsIn(n + 1, a, b)
  {
    var rest :| Turns(rest, ia, b) && |rest| == n;
    assert Apply(Delete(|ia|), a) == ia;
    FirstEditTurns(Delete(|ia|), rest, a, b);
  }

  lemma {:induction false} MatchLast(n: nat, ia: string, la: char, a: string, ib: string, lb: char, b: string)
    requires a == ia + [la] && b == ib + [lb] && TurnsIn(n, ia, ib)
    ensures TurnsIn(n + Cost(la, lb), a, b)
  {
    var rest :| Turns(rest, ia, ib) && |rest| == n;
    TurnsBefore(rest, ia, ib, [lb]);
    if la != lb {
      assert Apply(Substitute(|ia|, lb), a) == ia + [lb];
      FirstEditTurns(Substitute(|ia|, lb), rest, a, b);
    }
  }

  lemma {:induction false} OnlyInserts(b: string)
    ensures TurnsIn(|b|, "", b)
  {
    if b == "" {
      assert Turns([], "", "");
    } else {
      var ib := b[..|b| - 1];
      OnlyInserts(ib);
      InsertLast(|ib|, "", ib, b[|b| - 1], b);
    }
  }

  lemma {:induction false} OnlyDeletes(a: string)
    ensures TurnsIn(|a|, a, "")
  {
    if a == "" {
      assert Turns([], "", "");
    } else {
      var ia := a[..|a| - 1];
      OnlyDeletes(ia);
      DeleteLast(|ia|, ia, a[|a| - 1], a, "");
    }
  }

  /** Prefixes of `a` and `b` are joined by a script as long as their distance. */
  ghost predicate Reaches(a: string, b: string, i: nat, j: nat)
    requires i <= |a| && j <= |b|
  {
    TurnsIn(PrefixDistance(a, b, i, j), a[..i], b[..j])
  }

  lemma {:induction false} ReachesAtEdge(a: string, b: string, i: nat, j: nat)
    requires i <= |a| && j <= |b| && (i == 0 || j == 0)
    ensures Reaches(a, b, i, j)
  {
    Recurrence(a, b, i, j);
    assert a[..0] == "" && b[..0] == "";
    if i == 0 {
      OnlyInserts(b[..j]);
    } else {
      OnlyDeletes(a[..i]);
    }
  }

  lemma {:induction false} PrefixGrows(s: string, n: nat)
    requires 0 < n <= |s|
    ensures s[..n] == s[..n - 1] + [s[n - 1]]
  {
  }

  lemma {:induction false} InsertOnPrefixes(a: string, b: string, i: nat, j: nat, n: nat)
    requires i <= |a| && 0 < j <= |b| && TurnsIn(n, a[..i], b[..j - 1])
    ensures TurnsIn(n + 1, a[..i], b[..j])
  {
    PrefixGrows(b, j);
    InsertLast(n, a[..i], b[..j - 1], b[j - 1], b[..j]);
  }

  lemma {:induction false} DeleteOnPrefixes(a: string, b: string, i: nat, j: nat, n: nat)
    requires 0 < i <= |a| && j <= |b| && TurnsIn(n, a[..i - 1], b[..j])
    ensures TurnsIn(n + 1, a[..i], b[..j])
  {
    PrefixGrows(a, i);
    DeleteLast(n, a[..i - 1], a[i - 1], a[..i], b[..j]);
  }

  lemma {:induction false} MatchOnPrefixes(a: string, b: string, i: nat, j: nat, n: nat)
    requires 0 < i <= |a| && 0 < j <= |b| && TurnsIn(n, a[..i - 1], b[..j - 1])
    ensures TurnsIn(n + Cost(a[i - 1], b[j - 1]), a[..i], b[..j])
  {
    PrefixGrows(a, i);
    PrefixGrows(b, j);
    MatchLast(n, a[..i - 1], a[i - 1], a[..i], b[..j - 1], b[j - 1], b[..j]);
  }

  lemma {:induction false} ScriptByInsert(a: string, b: string, i: nat, j: nat, n: nat)
    requires i <= |a| && 0 < j <= |b| && n == PrefixDistance(a, b, i, j - 1)
    ensures TurnsIn(n + 1, a[..i], b[..j])
    decreases i + j, 0
  {
    ScriptExists(a, b, i, j - 1);
    InsertOnPrefixes(a, b, i, j, n);
  }

  lemma {:induction false} ScriptByDelete(a: string, b: string, i: nat, j: nat, n: nat)
    requires 0 < i <= |a| && j <= |b| && n == PrefixDistance(a, b, i - 1, j)
    ensures TurnsIn(n + 1, a[..i], b[..j])
    decreases i + j, 0
  {
    ScriptExists(a, b, i - 1, j);
    DeleteOnPrefixes(a, b, i, j, n);
  }

  lemma {:induction false} ScriptByMatch(a: string, b: string, i: nat, j: nat, n: nat)
    requires 0 < i <= |a| && 0 < j <= |b| && n == PrefixDistance(a, b, i - 1, j - 1)
    ensures TurnsIn(n + Cost(a[i - 1], b[j - 1]), a[..i], b[..j])
    decreases i + j, 0
  {
    ScriptExists(a, b, i - 1, j - 1);
    MatchOnPrefixes(a, b, i, j, n);
  }

  /** A script as long as the distance exists: follow the recurrence. */
  lemma {:induction false} ScriptExists(a: string, b: string, i: nat, j: nat)
    requires i <= |a| && j <= |b|
    ensures Reaches(a, b, i, j)
    decreases i + j, 1
  {
    if i == 0 || j == 0 {
      ReachesAtEdge(a, b, i, j);
    } else {
      Recurrence(a, b, i, j);
      if PrefixDistance(a, b, i, j) == PrefixDistance(a, b, i, j - 1) + 1 {
        ScriptByInsert(a, b, i, j, PrefixDistance(a, b, i, j - 1));
      } else if PrefixDistance(a, b, i, j) == PrefixDistance(a, b, i - 1, j) + 1 {
        ScriptByDelete(a, b, i, j, PrefixDistance(a, b, i - 1, j));
      } else {
        ScriptByMatch(a, b, i, j, PrefixDistance(a, b, i - 1, j - 1));
      }
    }
  }

  /** The distance is the least length of a script of single-character edits turning `a` into `b`. */
  lemma {:induction false} DistanceIsLeastEdits(a: string, b: string)
    ensures exists script :: Turns(script, a, b) && |script| == Distance(a, b)
    ensures forall script :: Turns(script, a, b) ==> Distance(a, b) <= |script|
  {
    ScriptExists(a, b, |a|, |b|);
    assert a[..|a|] == a && b[..|b|] == b;
    forall script | Turns(script, a, b)
      ensures Distance(a, b) <= |script|
    {
      NoShorterScript(script, a, b);
    }
  }
}
