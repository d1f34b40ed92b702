/**
  Pointers, deleters and the shared tracker every owning handle reports to.

  A pointer is a natural number and 0 is the null pointer. A deleter is an
  opaque value that handles copy around; applying it to a pointer is the only
  observable runtime effect of the whole library, so the tracker records each
  application in a release log. The tracker also keeps, as ghost state, which
  handle currently owns which pointer: that is the exclusive-ownership
  invariant the library is built to maintain.
 */
module Tracking {

  /** A pointer value; `Null` is the "owns nothing" sentinel. */
  type Ptr = nat

  const Null: Ptr := 0

  /** An opaque deleter. A value-initialised deleter (`del()`) is `DefaultDelete`. */
  datatype Deleter = DefaultDelete | Custom(id: nat)

  /**
    One application of a deleter: the pointer released, the deleter that
    released it, and the pointer the releasing handle stored at that moment
    (what a deleter that looked back into its handle would see).
   */
  datatype Release = Release(ptr: Ptr, deleter: Deleter, seen: Ptr)

  /**
    What a handle lets out when it gives up `p` with deleter `d`: one release of
    `p` by `d` when `p` is non-null, nothing when it is null.
   */
  function Disposal(p: Ptr, d: Deleter, seen: Ptr): (r: seq<Release>)
    ensures p == Null <==> r == []
    ensures forall e :: e in r ==> e.ptr == p && e.deleter == d && e.seen == seen
    ensures |r| <= 1
  {
    if p == Null then [] else [Release(p, d, seen)]
  }

  /** How many times `p` was released in `log`. */
  function Count(log: seq<Release>, p: Ptr): nat
  {
    if log == [] then 0
    else (if log[0].ptr == p then 1 else 0) + Count(log[1..], p)
  }

  /** No pointer is released twice. */
  ghost predicate NoDoubleRelease(log: seq<Release>)
  {
    forall i, j :: 0 <= i < j < |log| ==> log[i].ptr != log[j].ptr
  }

  /** `p` does not occur in `log`. */
  ghost predicate NeverReleased(log: seq<Release>, p: Ptr)
  {
    forall i :: 0 <= i < |log| ==> log[i].ptr != p
  }

  lemma {:induction false} CountAppend(a: seq<Release>, b: seq<Release>, p: Ptr)
    ensures Count(a + b, p) == Count(a, p) + Count(b, p)
  {
    if a == [] {
      assert a + b == b;
    } else {
      assert (a + b)[1..] == a[1..] + b;
      CountAppend(a[1..], b, p);
    }
  }

  /** Disposing of `q` adds exactly one release of `q` when `q` is non-null, and touches no other pointer's count. */
  lemma CountDisposal(log: seq<Release>, q: Ptr, d: Deleter, seen: Ptr, p: Ptr)
    ensures Count(log + Disposal(q, d, seen), p)
         == Count(log, p) + (if q != Null && q == p then 1 else 0)
  {
    CountAppend(log, Disposal(q, d, seen), p);
  }

  /** A pointer has count zero exactly when it never occurs in the log. */
  lemma {:induction false} CountZero(log: seq<Release>, p: Ptr)
    ensures Count(log, p) == 0 <==> NeverReleased(log, p)
  {
    if log != [] {
      CountZero(log[1..], p);
      if NeverReleased(log[1..], p) && log[0].ptr != p {
        forall i | 0 <= i < |log| ensures log[i].ptr != p {
          if i > 0 { assert log[i] == log[1..][i - 1]; }
        }
      }
    }
  }

  /** In a log without double releases every pointer is released at most once. */
  lemma {:induction false} CountAtMostOnce(log: seq<Release>, p: Ptr)
    requires NoDoubleRelease(log)
    ensures Count(log, p) <= 1
  {
    if log != [] {
      assert NoDoubleRelease(log[1..]) by {
        forall i, j | 0 <= i < j < |log[1..]| ensures log[1..][i].ptr != log[1..][j].ptr {
          assert log[1..][i] == log[i + 1] && log[1..][j] == log[j + 1];
        }
      }
      CountAtMostOnce(log[1..], p);
      if log[0].ptr == p {
        assert NeverReleased(log[1..], p) by {
          forall i | 0 <= i < |log[1..]| ensures log[1..][i].ptr != p {
            assert log[1..][i] == log[i + 1];
          }
        }
        CountZero(log[1..], p);
      }
    }
  }

  /** `owner` with `p`, when it is non-null, recorded as owned by `h`. */
  ghost function Assign(owner: map<Ptr, object>, p: Ptr, h: object): map<Ptr, object>
  {
    if p == Null then owner else owner[p := h]
  }

  /** `h` is recorded as the owner of `p` when `p` is non-null, and of nothing else. */
  ghost predicate OwnsExactly(owner: map<Ptr, object>, h: object, p: Ptr)
  {
    && (p != Null ==> p in owner && owner[p] == h)
    && (forall k :: k in owner && owner[k] == h ==> k == p)
  }

  /**
    The shared tracker: the release log (what an instrumented deleter would
    record) and, as ghost state, the owner of every pointer that a live handle
    currently holds.
   */
  class Tracker {
    var log: seq<Release>
    ghost var owner: map<Ptr, object>

    /**
      Null is never owned, no pointer was released twice, and a released
      pointer is owned by nobody.
     */
    ghost predicate Valid()
      reads this
    {
      && Null !in owner
      && NoDoubleRelease(log)
      && (forall i :: 0 <= i < |log| ==> log[i].ptr != Null && log[i].ptr !in owner)
    }

    /**
      A pointer a handle may take ownership of: null, or a live pointer that no
      handle owns. Handing a handle anything else is undefined behaviour in the
      library (a later double release).
     */
    ghost predicate Adoptable(p: Ptr)
      reads this
    {
      p == Null || (p !in owner && NeverReleased(log, p))
    }

    constructor ()
      ensures Valid() && log == [] && owner == map[]
    {
      log := [];
      owner := map[];
    }

    /** Applies deleter `d` to `p` on behalf of a handle that now stores `seen`. */
    method Invoke(p: Ptr, d: Deleter, seen: Ptr)
      modifies this
      ensures log == old(log) + [Release(p, d, seen)]
      ensures owner == old(owner)
    {
      log := log + [Release(p, d, seen)];
    }
  }

  /**
    Exclusive ownership, counted: in a valid tracker a pointer is either owned
    by one handle and never released, or released at most once and owned by
    nobody.
   */
  lemma OwnedOrReleasedOnce(t: Tracker, p: Ptr)
    requires t.Valid()
    ensures Count(t.log, p) + (if p in t.owner then 1 else 0) <= 1
  {
    CountAtMostOnce(t.log, p);
    if p in t.owner {
      assert NeverReleased(t.log, p);
      CountZero(t.log, p);
    }
  }
}
