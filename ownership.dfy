/**
  Exclusive ownership stated about handles: at most one live handle, scalar or
  array, holds any given non-null pointer of a tracker.
 */
module Ownership {
  import opened Tracking
  import opened ScalarHandle
  import opened ArrayHandle

  /** Two valid scalar handles on one tracker holding the same non-null pointer are the same handle. */
  lemma ScalarOwnersUnique(a: UniquePtr, b: UniquePtr)
    requires a.Valid() && b.Valid() && a.tracker == b.tracker
    requires a.Get() != Null && a.Get() == b.Get()
    ensures a == b
  {
  }

  /** Two valid array handles on one tracker holding the same non-null pointer are the same handle. */
  lemma ArrayOwnersUnique(a: UniqueArray, b: UniqueArray)
    requires a.Valid() && b.Valid() && a.tracker == b.tracker
    requires a.Get() != Null && a.Get() == b.Get()
    ensures a == b
  {
  }

  /** A valid scalar handle and a valid array handle on one tracker never hold the same non-null pointer. */
  lemma ScalarAndArrayDisjoint(a: UniquePtr, b: UniqueArray)
    requires a.Valid() && b.Valid() && a.tracker == b.tracker
    ensures a.Get() == Null || a.Get() != b.Get()
  {
  }
}
