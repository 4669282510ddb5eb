/** Small types and functions shared by every component. */
module Common {

  /** Seconds. */
  type Time = int

  type ProblemId = string

  datatype Option<+T> = None | Some(value: T)

  datatype Result<+T, +E> = Ok(value: T) | Err(error: E)

  /** The paths of the directories on the way to a path. */
  function Parents(path: string): set<string> {
    set k | 0 <= k < |path| && path[k] == '/' :: path[..k]
  }

  /** No path is a directory on the way to another. */
  predicate NoneOnTheWay(paths: set<string>) {
    forall p, q :: p in paths && q in paths ==> p !in Parents(q)
  }

  /** The larger of two integers: SQL's GREATEST on two non-null arguments. */
  function Max(a: int, b: int): int {
    if a >= b then a else b
  }

  predicate IsMaximum(s: set<int>, m: int) {
    m in s && forall n :: n in s ==> n <= m
  }

  lemma {:induction false} MaximumExists(s: set<int>, x: int)
    requires x in s
    ensures exists m :: IsMaximum(s, m)
    decreases s
  {
    var rest := s - {x};
    var top := x;
    if y :| y in rest {
      MaximumExists(rest, y);
      var m :| IsMaximum(rest, m);
      top := Max(m, x);
    }
    forall n | n in s
      ensures n <= top
    {
      assert n == x || n in rest;
    }
    assert IsMaximum(s, top);
  }

  /** SQL's MAX over at least one value. */
  function Maximum(s: set<int>): (m: int)
    requires exists n :: n in s
    ensures IsMaximum(s, m)
  {
    var n :| n in s;
    MaximumExists(s, n);
    var m :| IsMaximum(s, m);
    m
  }
}
