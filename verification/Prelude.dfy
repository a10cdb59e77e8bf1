/** Small shared types. */
module Prelude {

  datatype Option<+T> = None | Some(value: T)

  datatype Result<+T, +E> = Ok(value: T) | Err(error: E)

  /** A number above every one of a set. */
  lemma {:induction false} Unused(s: set<nat>) returns (n: nat)
    ensures forall m :: m in s ==> m < n
    decreases |s|
  {
    if s == {} {
      n := 0;
    } else {
      var m :| m in s;
      var k := Unused(s - {m});
      n := if m < k then k else m + 1;
      assert forall x :: x in s ==> x == m || x in s - {m};
    }
  }
}
