/** Small datatypes shared by every component of the model. */
module Prelude {

  datatype Option<+T> = None | Some(value: T)

  datatype Result<+T, +E> = Ok(value: T) | Err(error: E)

  /** The last element of a non-empty sequence, and everything before it. */
  function Last<T>(s: seq<T>): T
    requires s != []
  {
    s[|s| - 1]
  }

  function Front<T>(s: seq<T>): seq<T>
    requires s != []
  {
    s[..|s| - 1]
  }

  function Max(a: int, b: int): int {
    if a >= b then a else b
  }

  function Min(a: int, b: int): int {
    if a <= b then a else b
  }

  ghost predicate IsLargest(s: set<nat>, m: nat) {
    m in s && forall x | x in s :: x <= m
  }

  /** A finite non-empty set of naturals has a largest element. */
  lemma LargestExists(s: set<nat>)
    requires s != {}
    ensures exists m :: IsLargest(s, m)
  {
    var x :| x in s;
    var rest := s - {x};
    if rest == {} {
      assert s == {x};
      assert IsLargest(s, x);
    } else {
      LargestExists(rest);
      var m :| IsLargest(rest, m);
      assert s == rest + {x};
      assert IsLargest(s, if x >= m then x else m);
    }
  }

  function Largest(s: set<nat>): (m: nat)
    requires s != {}
    ensures m in s && forall x | x in s :: x <= m
  {
    LargestExists(s);
    assert exists m :: m in s && forall x | x in s :: x <= m by {
      var m :| IsLargest(s, m);
    }
    var m :| m in s && forall x | x in s :: x <= m;
    m
  }
}
