/**
  The free comparison operators between two handles and between a handle and
  null. Each is a function of `get()` values alone, so the operands here are
  those values; the deleter types of the two handles play no part. `less` is
  the pointer type's `<`; `<=`, `>` and `>=` are all written through it.
 */
module Comparison {
  import opened Tracking

  /** `less` is a strict total order on pointers. */
  ghost predicate StrictTotalOrder(less: (Ptr, Ptr) -> bool)
  {
    && (forall a :: !less(a, a))
    && (forall a, b, c :: less(a, b) && less(b, c) ==> less(a, c))
    && (forall a, b :: a != b ==> less(a, b) || less(b, a))
  }

  /** The built-in order of pointer values, with null as 0. */
  function AddressLess(a: Ptr, b: Ptr): bool
  {
    a < b
  }

  lemma AddressLessIsStrictTotal()
    ensures StrictTotalOrder(AddressLess)
  {
  }

  // Handle against handle.

  /** `lhs == rhs`: both handles hold the same pointer. */
  function Equal(lhs: Ptr, rhs: Ptr): (r: bool)
    ensures r <==> !NotEqual(lhs, rhs)
  {
    lhs == rhs
  }

  /** `lhs != rhs`. */
  function NotEqual(lhs: Ptr, rhs: Ptr): bool
  {
    lhs != rhs
  }

  /** `lhs < rhs`. */
  function Less(less: (Ptr, Ptr) -> bool, lhs: Ptr, rhs: Ptr): bool
  {
    less(lhs, rhs)
  }

  /** `lhs <= rhs`, written `!(rhs < lhs)`: under a strict total order, `<` or `==`. */
  function LessEqual(less: (Ptr, Ptr) -> bool, lhs: Ptr, rhs: Ptr): (r: bool)
    ensures StrictTotalOrder(less) ==> (r <==> Less(less, lhs, rhs) || Equal(lhs, rhs))
  {
    !Less(less, rhs, lhs)
  }

  /** `lhs > rhs`, written `rhs < lhs`: under a strict total order, neither `<` nor `==`. */
  function Greater(less: (Ptr, Ptr) -> bool, lhs: Ptr, rhs: Ptr): (r: bool)
    ensures StrictTotalOrder(less) ==> (r <==> !Less(less, lhs, rhs) && !Equal(lhs, rhs))
  {
    Less(less, rhs, lhs)
  }

  /** `lhs >= rhs`, written `!(lhs < rhs)`: under a strict total order, `>` or `==`. */
  function GreaterEqual(less: (Ptr, Ptr) -> bool, lhs: Ptr, rhs: Ptr): (r: bool)
    ensures StrictTotalOrder(less) ==> (r <==> Greater(less, lhs, rhs) || Equal(lhs, rhs))
  {
    !Less(less, lhs, rhs)
  }

  /** Exactly one of `<`, `==`, `>` holds between two handles. */
  lemma Trichotomy(less: (Ptr, Ptr) -> bool, lhs: Ptr, rhs: Ptr)
    requires StrictTotalOrder(less)
    ensures Less(less, lhs, rhs) || Equal(lhs, rhs) || Greater(less, lhs, rhs)
    ensures !(Less(less, lhs, rhs) && Equal(lhs, rhs))
    ensures !(Less(less, lhs, rhs) && Greater(less, lhs, rhs))
    ensures !(Equal(lhs, rhs) && Greater(less, lhs, rhs))
  {
  }

  /** Swapping the operands mirrors every ordering operator. */
  lemma Converse(less: (Ptr, Ptr) -> bool, lhs: Ptr, rhs: Ptr)
    ensures Less(less, lhs, rhs) == Greater(less, rhs, lhs)
    ensures LessEqual(less, lhs, rhs) == GreaterEqual(less, rhs, lhs)
    ensures Equal(lhs, rhs) == Equal(rhs, lhs)
  {
  }

  // Handle against null, in both operand orders.

  /** `h == nullptr`: `h` owns nothing. */
  function EqualNull(p: Ptr): bool
  {
    p == Null
  }

  /** `nullptr == h`. */
  function NullEqual(p: Ptr): bool
  {
    Null == p
  }

  /** `h != nullptr`. */
  function NotEqualNull(p: Ptr): bool
  {
    p != Null
  }

  /** `nullptr != h`. */
  function NullNotEqual(p: Ptr): bool
  {
    Null != p
  }

  /** `h < nullptr`. */
  function LessNull(less: (Ptr, Ptr) -> bool, p: Ptr): bool
  {
    less(p, Null)
  }

  /** `nullptr < h`. */
  function NullLess(less: (Ptr, Ptr) -> bool, p: Ptr): bool
  {
    less(Null, p)
  }

  /** `h <= nullptr`, written `!(nullptr < h)`. */
  function LessEqualNull(less: (Ptr, Ptr) -> bool, p: Ptr): bool
  {
    !less(Null, p)
  }

  /** `nullptr <= h`, written `!(h < nullptr)`. */
  function NullLessEqual(less: (Ptr, Ptr) -> bool, p: Ptr): bool
  {
    !less(p, Null)
  }

  /** `h > nullptr`, written `nullptr < h`. */
  function GreaterNull(less: (Ptr, Ptr) -> bool, p: Ptr): bool
  {
    less(Null, p)
  }

  /** `nullptr > h`, written `h < nullptr`. */
  function NullGreater(less: (Ptr, Ptr) -> bool, p: Ptr): bool
  {
    less(p, Null)
  }

  /** `h >= nullptr`, written `!(h < nullptr)`. */
  function GreaterEqualNull(less: (Ptr, Ptr) -> bool, p: Ptr): bool
  {
    !less(p, Null)
  }

  /** `nullptr >= h`, written `!(nullptr < h)`. */
  function NullGreaterEqual(less: (Ptr, Ptr) -> bool, p: Ptr): bool
  {
    !less(Null, p)
  }

  /**
    The comparisons with null agree with comparing against an empty handle,
    whose `get()` is null, in the same operand order.
   */
  lemma NullFormsMatchHandleForms(less: (Ptr, Ptr) -> bool, p: Ptr)
    ensures EqualNull(p) == Equal(p, Null) && NullEqual(p) == Equal(Null, p)
    ensures NotEqualNull(p) == NotEqual(p, Null) && NullNotEqual(p) == NotEqual(Null, p)
    ensures LessNull(less, p) == Less(less, p, Null) && NullLess(less, p) == Less(less, Null, p)
    ensures LessEqualNull(less, p) == LessEqual(less, p, Null)
    ensures NullLessEqual(less, p) == LessEqual(less, Null, p)
    ensures GreaterNull(less, p) == Greater(less, p, Null)
    ensures NullGreater(less, p) == Greater(less, Null, p)
    ensures GreaterEqualNull(less, p) == GreaterEqual(less, p, Null)
    ensures NullGreaterEqual(less, p) == GreaterEqual(less, Null, p)
  {
  }

  /**
    Both operand orders agree: `h == null` and `null == h` hold together, and
    exactly when `h` owns nothing; each ordering against null mirrors its
    partner with the operands swapped.
   */
  lemma NullFormsMirror(less: (Ptr, Ptr) -> bool, p: Ptr)
    ensures EqualNull(p) == NullEqual(p) && (EqualNull(p) <==> p == Null)
    ensures NotEqualNull(p) == NullNotEqual(p) && NotEqualNull(p) == !EqualNull(p)
    ensures LessNull(less, p) == NullGreater(less, p)
    ensures NullLess(less, p) == GreaterNull(less, p)
    ensures LessEqualNull(less, p) == NullGreaterEqual(less, p)
    ensures NullLessEqual(less, p) == GreaterEqualNull(less, p)
  {
  }

  /** With null as address 0, no handle is below null and null is at or below every handle. */
  lemma NullIsLeast(p: Ptr)
    ensures !LessNull(AddressLess, p) && NullLessEqual(AddressLess, p)
    ensures GreaterEqualNull(AddressLess, p) && !NullGreater(AddressLess, p)
    ensures NullLess(AddressLess, p) <==> p != Null
  {
  }
}
