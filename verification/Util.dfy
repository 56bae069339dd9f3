/** String-list helpers of pkg/util/controller-utils.go. */
module Util {

  /** The elements of `slice` other than `s`, in order. */
  function Without(slice: seq<string>, s: string): (r: seq<string>)
    ensures forall x :: x in r <==> x in slice && x != s
  {
    if slice == [] then []
    else if slice[|slice| - 1] == s then Without(slice[..|slice| - 1], s)
    else Without(slice[..|slice| - 1], s) + [slice[|slice| - 1]]
  }

  method ContainsString(slice: seq<string>, s: string) returns (found: bool)
    ensures found <==> s in slice
  {
    for i := 0 to |slice|
      invariant s !in slice[..i]
    {
      if slice[i] == s {
        return true;
      }
    }
    return false;
  }

  method RemoveString(slice: seq<string>, s: string) returns (result: seq<string>)
    ensures result == Without(slice, s)
  {
    result := [];
    for i := 0 to |slice|
      invariant result == Without(slice[..i], s)
    {
      assert slice[..i + 1][..i] == slice[..i];
      if slice[i] == s {
        continue;
      }
      result := result + [slice[i]];
    }
    assert slice[..|slice|] == slice;
  }

  /** Removing a finalizer that was just appended to a list without it gives
      the list back, and removing twice changes nothing more. */
  lemma {:induction false} WithoutUndoesAppend(slice: seq<string>, s: string)
    requires s !in slice
    ensures Without(slice, s) == slice
    ensures Without(slice + [s], s) == slice
    ensures Without(Without(slice, s), s) == Without(slice, s)
  {
    if slice != [] {
      var front := slice[..|slice| - 1];
      WithoutUndoesAppend(front, s);
      assert slice == front + [slice[|slice| - 1]];
    }
    assert (slice + [s])[..|slice|] == slice;
  }
}
