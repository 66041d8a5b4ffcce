/**
 * The list copies of the capabilities completion: a reported list is copied
 * element by element into a fresh list, but only when it has elements; a
 * null or empty list is sent as null.
 */
module CapabilityLists {
  import opened Wrappers

  /** The list that is sent: null unless the reported list has elements. */
  function NullIfEmpty<T>(xs: Option<seq<T>>): (r: Option<seq<T>>)
    ensures r.Some? <==> xs.Some? && |xs.value| > 0
    ensures r.Some? ==> r.value == xs.value
  {
    if xs.Some? && |xs.value| > 0 then xs else None
  }

  /** An empty list is never sent, and copying a sent list again changes nothing. */
  lemma NullIfEmptyIdempotent<T>(xs: Option<seq<T>>)
    ensures NullIfEmpty(NullIfEmpty(xs)) == NullIfEmpty(xs)
    ensures NullIfEmpty(xs) != Some([])
  {
  }

  /** The `if (list?.Count > 0) { copy = new(); foreach … copy.Add(…) }` pattern. */
  method CopyNonEmpty<T>(xs: Option<seq<T>>) returns (r: Option<seq<T>>)
    ensures r == NullIfEmpty(xs)
  {
    r := None;
    if xs.Some? && |xs.value| > 0 {
      var copy: seq<T> := [];
      var i := 0;
      while i < |xs.value|
        invariant 0 <= i <= |xs.value|
        invariant copy == xs.value[..i]
      {
        copy := copy + [xs.value[i]];
        i := i + 1;
      }
      assert xs.value[..i] == xs.value;
      r := Some(copy);
    }
  }
}
