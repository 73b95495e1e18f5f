/** Stock facts about sequences, and about computations that yield one or fail. */
module Sequences {
  import opened Options

  lemma {:induction false} Reassociate<T>(a: seq<T>, b: seq<T>, c: seq<T>)
    ensures a + (b + c) == a + b + c
  {
  }

  lemma {:induction false} SamePrefix<T>(a: seq<T>, b: seq<T>, c: seq<T>)
    ensures a + b == a + c <==> b == c
  {
    assert (a + b)[|a|..] == b && (a + c)[|a|..] == c;
  }

  /** The result that starts with `done`, unless the rest fails. */
  function After<T>(done: seq<T>, later: Result<seq<T>, string>): Result<seq<T>, string> {
    match later
    case Ok(rest) => Ok(done + rest)
    case Err(e) => Err(e)
  }

  lemma {:induction false} AfterAfter<T>(a: seq<T>, b: seq<T>, later: Result<seq<T>, string>)
    ensures After(a, After(b, later)) == After(a + b, later)
  {
    if later.Ok? {
      Reassociate(a, b, later.value);
    }
  }

  lemma {:induction false} AfterEnds<T>(later: Result<seq<T>, string>, done: seq<T>)
    ensures After([], later) == later && After(done, Ok([])) == Ok(done)
  {
    assert done + [] == done && (later.Ok? ==> [] + later.value == later.value);
  }
}
