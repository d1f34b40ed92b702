# unique_ptr emulation: the runtime state machine

This project models the runtime behaviour of a C++03 emulation of
`std::unique_ptr` (section 20.7.1 of ISO C++11, `[unique.ptr]`): the scalar
owning handle `unique_ptr<T, D>`, the array owning handle `unique_ptr<T[], D>`,
and the free comparison operators between handles and against null.

Most of the library is type-level (participation constraints, static asserts,
the pointer-type selection, the safe-bool idiom) and is not modelled. What is
modelled is the small sequential state machine underneath: each handle holds
one pointer (`0` is null) and one deleter, and every operation is a few field
assignments plus "apply the deleter to the old pointer if it is non-null".

The preprocessor branch modelled is the one for compilers without rvalue
references (`BOOST_NO_CXX11_RVALUE_REFERENCES`, move emulation). Where the
other branch behaves differently, this is said below.

## How the model is built

- `tracking.dfy` (`Tracking`) holds pointers (`Ptr = nat`, `Null = 0`), the
  opaque `Deleter` value (a value-initialised deleter is `DefaultDelete`), and
  a shared `Tracker` object. Applying a deleter (`Tracker.Invoke`) appends a
  `Release(ptr, deleter, seen)` entry to the tracker's release log. `seen` is
  the pointer the releasing handle stored when its deleter ran. This makes the
  order "store the new pointer, then delete the old one" observable.
- The tracker also keeps a ghost `owner` map from pointer to owning handle.
  `Tracker.Valid()` says three things: null is never owned, no pointer was
  released twice, and a released pointer is owned by nobody. Each handle's
  `Valid()` says that it is the recorded owner of its non-null pointer and of
  nothing else. Every operation keeps these invariants.
- `scalar_handle.dfy` (`ScalarHandle.UniquePtr`) and `array_handle.dfy`
  (`ArrayHandle.UniqueArray`) are classes with the fields `ptr` and `del`. The
  library's operations become their constructors and methods. The destructor is
  the explicit method `Destroy()`. Move construction is a constructor that
  takes the source handle and modifies it.
- Every mutating method states exactly what its new state is: its own fields,
  the release log (`old(log) + Disposal(...)`) and the ownership map.
- `comparison.dfy` (`Comparison`) gives the operators as functions of the two
  `get()` values. Each takes `less`, the pointer type's `<`.
- `ownership.dfy` (`Ownership`) states exclusive ownership about the handles
  themselves: no two live handles, of either kind, hold the same non-null
  pointer.
- `scenarios.dfy` (`Scenarios`) holds client programs. Each one builds handles
  over a fresh tracker and states the whole release log that results. They are
  proved from the operations' contracts alone.

A `Ptr` names one allocation, not an address. When a later allocation happens
to return an address that was freed before, the model counts it as a fresh
`Ptr` value. Handing a handle an allocation that another handle owns, or one
that has already been released, is undefined behaviour in the library (a later
double release). The model turns this into the precondition
`Tracker.Adoptable(p)` on every operation that adopts a caller-supplied
pointer. In return it proves that no allocation is ever released twice. All
handles in one program report to one tracker, so the two-handle operations
require `other.tracker == tracker`.

## Where the code departs from ISO C++11 `[unique.ptr]` (the code is followed)

- The array handle's argument-less `reset()`
  (unique_ptr/boost/unique_ptr/detail/uptr_arrays.hpp:66-73) applies the
  deleter first and nulls the field afterwards, while `reset(p)`
  (uptr_arrays.hpp:75-83) stores `p` first and applies the deleter after. The
  array handle's assignment from null goes through this `reset()`; the scalar
  one goes through `reset(pointer())`. `ArrayHandle.UniqueArray.ResetToNull`
  and `Scenarios.NullingOrder` show the difference (`seen` is the old pointer,
  not null).
- The converting move assignments (uptr_base.hpp:346-367,
  uptr_arrays.hpp:266-280) have no self-check, while the same-type ones do.
  `ConvertingMoveAssign` is proved to leave a handle unchanged when it is
  assigned from itself: `reset(r.release())` re-adopts the pointer it has just
  released. So the missing check is harmless. In the other branch the array
  handle's converting assignment has the check and the scalar one lacks it.
- The array handle's converting constructors and assignments
  (uptr_arrays.hpp:213-226, 266-280) have no participation constraints, so
  they accept scalar handles and arrays of a derived type. This is a
  compile-time matter and is not modelled.

## Model

| member | source | states |
|---|---|---|
| `Tracking.Disposal` | unique_ptr/boost/unique_ptr/detail/uptr_base.hpp:75-78 | giving up a pointer releases nothing when it is null, and otherwise exactly one release, of that pointer, by the handle's deleter |
| `Tracking.Tracker.Invoke` | unique_ptr/boost/default_delete.hpp:50-53 | applying a deleter appends exactly one release entry to the log and changes no ownership |
| `Tracking.CountDisposal` | unique_ptr/boost/unique_ptr/detail/uptr_base.hpp:312-318 | disposing of a handle's pointer raises that pointer's release count by one if it is non-null, and leaves every other pointer's count unchanged |
| `Tracking.CountAtMostOnce` | unique_ptr/boost/unique_ptr/detail/uptr_base.hpp:312-318 | in a log with no double release, every pointer is released at most once |
| `Tracking.OwnedOrReleasedOnce` | unique_ptr/boost/unique_ptr/detail/uptr_base.hpp:18-20 | in a consistent tracker, a pointer is either owned by a live handle and never released, or released at most once and owned by nobody |
| `Ownership.ScalarOwnersUnique` | unique_ptr/boost/unique_ptr/detail/uptr_base.hpp:16-19 | the handle is movable but not copyable, so two valid scalar handles on one tracker whose `get()` is the same non-null pointer are the same handle |
| `Ownership.ArrayOwnersUnique` | unique_ptr/boost/unique_ptr/detail/uptr_arrays.hpp:15-18 | two valid array handles on one tracker whose `get()` is the same non-null pointer are the same handle |
| `Ownership.ScalarAndArrayDisjoint` | unique_ptr/boost/unique_ptr/detail/uptr_arrays.hpp:15-18 | a valid scalar handle and a valid array handle on one tracker never hold the same non-null pointer |
| `ScalarHandle.UniquePtr.constructor` | unique_ptr/boost/unique_ptr/detail/uptr_base.hpp:167-175 | the default constructor yields an empty handle with a value-initialised deleter |
| `ScalarHandle.UniquePtr.FromPointer` | unique_ptr/boost/unique_ptr/detail/uptr_base.hpp:189-197 | `explicit unique_ptr(p)` makes `get() == p` and records the new handle as the owner of `p`; nothing is released |
| `ScalarHandle.UniquePtr.WithDeleter` | unique_ptr/boost/unique_ptr/detail/uptr_base.hpp:199-222 | `unique_ptr(p, d)` in both overloads owns `p` with deleter `d`; nothing is released |
| `ScalarHandle.UniquePtr.FromMoved` | unique_ptr/boost/unique_ptr/detail/uptr_base.hpp:253-283 | move construction takes over the source's pointer and deleter and leaves the source null; ownership of the pointer passes to the new handle; nothing is released |
| `ScalarHandle.UniquePtr.Get` | unique_ptr/boost/unique_ptr/detail/uptr_base.hpp:66-69 | `get()` changes nothing; a non-null result is owned by this handle alone, and the result has never been released |
| `ScalarHandle.UniquePtr.IsOwning` | unique_ptr/boost/unique_ptr/detail/uptr_base.hpp:154-159 | the boolean test is true exactly when the handle owns a resource, that is when `get()` is not null |
| `ScalarHandle.UniquePtr.Release` | unique_ptr/boost/unique_ptr/detail/uptr_base.hpp:59-64 | `release()` returns the old pointer, leaves the handle null, releases nothing, and leaves the pointer unowned and live for the caller |
| `ScalarHandle.UniquePtr.Reset` | unique_ptr/boost/unique_ptr/detail/uptr_base.hpp:71-79 | `reset(p)` makes `get() == p`; it releases the old pointer once by the old deleter if it was non-null, and nothing if it was null; the deleter runs after the field holds `p` |
| `ScalarHandle.UniquePtr.Swap` | unique_ptr/boost/unique_ptr/detail/uptr_base.hpp:83-117 | `swap` exchanges pointers, deleters and ownership between the two handles, releases nothing, and changes nothing on a self-swap |
| `ScalarHandle.UniquePtr.Destroy` | unique_ptr/boost/unique_ptr/detail/uptr_base.hpp:312-318 | the destructor releases the pointer exactly once by the handle's deleter if it is non-null, and nothing otherwise |
| `ScalarHandle.UniquePtr.MoveAssign` | unique_ptr/boost/unique_ptr/detail/uptr_base.hpp:323-341 | self-assignment is a no-op; otherwise the destination's old non-null pointer is released once by its old deleter, the destination adopts the source's pointer and deleter, and the source ends null |
| `ScalarHandle.UniquePtr.ConvertingMoveAssign` | unique_ptr/boost/unique_ptr/detail/uptr_base.hpp:346-367 | the same outcome as the same-type assignment, including the no-op for self-assignment, although the code has no self-check |
| `ScalarHandle.UniquePtr.AssignNull` | unique_ptr/boost/unique_ptr/detail/uptr_base.hpp:405-410 | assignment from null (compiled only when the compiler has `nullptr`, so absent from a strict C++03 build) leaves the handle null and releases the old non-null pointer once, after the field is nulled |
| `ArrayHandle.UniqueArray.constructor` | unique_ptr/boost/unique_ptr/detail/uptr_arrays.hpp:176-179 | the default constructor yields an empty array handle with a value-initialised deleter |
| `ArrayHandle.UniqueArray.FromPointer` | unique_ptr/boost/unique_ptr/detail/uptr_arrays.hpp:188-191 | `explicit unique_ptr(p)` makes `get() == p` and records the handle as the owner of `p`; nothing is released |
| `ArrayHandle.UniqueArray.WithDeleter` | unique_ptr/boost/unique_ptr/detail/uptr_arrays.hpp:193-205 | `unique_ptr(p, d)` in both overloads owns `p` with deleter `d`; nothing is released |
| `ArrayHandle.UniqueArray.FromMoved` | unique_ptr/boost/unique_ptr/detail/uptr_arrays.hpp:213-226 | move construction takes over the source's pointer and deleter and leaves the source null; ownership passes to the new handle; nothing is released |
| `ArrayHandle.UniqueArray.Get` | unique_ptr/boost/unique_ptr/detail/uptr_arrays.hpp:61-64 | `get()` changes nothing; a non-null result is owned by this handle alone and has never been released |
| `ArrayHandle.UniqueArray.IsOwning` | unique_ptr/boost/unique_ptr/detail/uptr_arrays.hpp:163-168 | the boolean test is true exactly when the handle owns a resource |
| `ArrayHandle.UniqueArray.At` | unique_ptr/boost/unique_ptr/detail/uptr_arrays.hpp:150-153 | `operator[](i)` requires a non-null handle and an index inside the owned block, since the code checks neither; it returns element `i` of that block and changes no state |
| `ArrayHandle.UniqueArray.Release` | unique_ptr/boost/unique_ptr/detail/uptr_arrays.hpp:54-59 | `release()` returns the old pointer, leaves the handle null, releases nothing, and leaves the pointer unowned and live for the caller |
| `ArrayHandle.UniqueArray.ResetToNull` | unique_ptr/boost/unique_ptr/detail/uptr_arrays.hpp:66-73 | `reset()` on a non-null handle releases the pointer exactly once and leaves the handle null, with the deleter running while the field still holds the pointer; on a null handle it does nothing |
| `ArrayHandle.UniqueArray.Reset` | unique_ptr/boost/unique_ptr/detail/uptr_arrays.hpp:75-83 | `reset(p)` adopts `p` first, then releases the old pointer once if it was non-null |
| `ArrayHandle.UniqueArray.Swap` | unique_ptr/boost/unique_ptr/detail/uptr_arrays.hpp:87-121 | `swap` exchanges pointer, deleter and ownership, releases nothing, and changes nothing on a self-swap |
| `ArrayHandle.UniqueArray.Destroy` | unique_ptr/boost/unique_ptr/detail/uptr_arrays.hpp:246-252 | the destructor releases a non-null pointer exactly once by the handle's deleter, and nothing otherwise |
| `ArrayHandle.UniqueArray.MoveAssign` | unique_ptr/boost/unique_ptr/detail/uptr_arrays.hpp:255-264 | self-assignment is a no-op; otherwise the old non-null pointer is released once, the destination adopts the source's pointer and deleter, and the source ends null |
| `ArrayHandle.UniqueArray.ConvertingMoveAssign` | unique_ptr/boost/unique_ptr/detail/uptr_arrays.hpp:266-280 | the same outcome as the same-type assignment, self-assignment included, without a self-check in the code |
| `ArrayHandle.UniqueArray.AssignNull` | unique_ptr/boost/unique_ptr/detail/uptr_arrays.hpp:318-324 | assignment from null (compiled only when the compiler has `nullptr`, so absent from a strict C++03 build) goes through `reset()`: it releases the old non-null pointer once, while the field still holds it, and leaves the handle null |
| `Comparison.Equal` | unique_ptr/boost/unique_ptr/detail/uptr_comparison.hpp:15-27 | handle `==` is equality of the two `get()` values, whatever the deleters, and `!=` is its negation |
| `Comparison.LessEqual` | unique_ptr/boost/unique_ptr/detail/uptr_comparison.hpp:36-41 | `<=` is written `!(rhs < lhs)`; under a strict total order it holds exactly when `<` or `==` does |
| `Comparison.Greater` | unique_ptr/boost/unique_ptr/detail/uptr_comparison.hpp:43-48 | `>` is written `rhs < lhs`; under a strict total order it holds exactly when neither `<` nor `==` does |
| `Comparison.GreaterEqual` | unique_ptr/boost/unique_ptr/detail/uptr_comparison.hpp:50-55 | `>=` is written `!(lhs < rhs)`; under a strict total order it holds exactly when `>` or `==` does |
| `Comparison.Trichotomy` | unique_ptr/boost/unique_ptr/detail/uptr_comparison.hpp:29-55 | under a strict total order exactly one of `<`, `==`, `>` holds between two handles |
| `Comparison.Converse` | unique_ptr/boost/unique_ptr/detail/uptr_comparison.hpp:29-55 | swapping the operands turns `<` into `>` and `<=` into `>=`, and leaves `==` unchanged |
| `Comparison.AddressLessIsStrictTotal` | unique_ptr/boost/unique_ptr/detail/uptr_comparison.hpp:29-34 | the built-in order on pointer values, with null as 0, is a strict total order |
| `Comparison.NullFormsMatchHandleForms` | unique_ptr/boost/unique_ptr/detail/uptr_comparison.hpp:62-132 | each comparison against null gives the same answer as the same comparison against an empty handle |
| `Comparison.NullFormsMirror` | unique_ptr/boost/unique_ptr/detail/uptr_comparison.hpp:62-132 | `h == null` and `null == h` agree and hold exactly when `h.get()` is null; `h < null` equals `null > h`, `h <= null` equals `null >= h`, and likewise for the other pairs |
| `Comparison.NullIsLeast` | unique_ptr/boost/unique_ptr/detail/uptr_comparison.hpp:86-108 | with null as address 0, `h < null` is always false and `null <= h` always true; `null < h` holds exactly when `h` owns something |
| `Scenarios.ResetThenDestroy` | unique_ptr/boost/unique_ptr/detail/uptr_base.hpp:71-79 | construct over `p`, `reset(q)`, destroy: the log is exactly "release `p` (field already `q`), then release `q`", so each is released exactly once |
| `Scenarios.MoveThenDestroyBoth` | unique_ptr/boost/unique_ptr/detail/uptr_base.hpp:253-259 | moving releases nothing; destroying both handles afterwards releases `p` once, by the deleter that moved with it |
| `Scenarios.ReleaseEscapes` | unique_ptr/boost/unique_ptr/detail/uptr_base.hpp:59-64 | after `release()` the caller gets `p` and the handle's destruction releases nothing |
| `Scenarios.SwapThenDestroyBoth` | unique_ptr/boost/unique_ptr/detail/uptr_base.hpp:83-117 | after a swap, each pointer is released once, by the deleter that travelled with it |
| `Scenarios.MoveAssignThenDestroyBoth` | unique_ptr/boost/unique_ptr/detail/uptr_base.hpp:323-341 | move assignment releases the destination's old pointer with the destination's old deleter; the adopted pointer is later released once with the source's deleter |
| `Scenarios.NullingOrder` | unique_ptr/boost/unique_ptr/detail/uptr_arrays.hpp:66-73 | assigning null to a scalar handle runs the deleter after the field is nulled; on an array handle it runs while the field still holds the pointer |
| `Scenarios.IndexOwned` | unique_ptr/boost/unique_ptr/detail/uptr_arrays.hpp:150-153 | element access on an owning array handle returns the element of the owned block and releases nothing |

## Left out

- The compile-time gating is not modelled. The model has no element types, so
  one converting constructor or assignment stands for every legal pair of
  handle types. This leaves out:
  - the `enable_if_c` participation conditions on the converting constructors
    and assignments;
  - `BOOST_STATIC_ASSERT_MSG` on reference or pointer deleters;
  - `BOOST_MOVABLE_BUT_NOT_COPYABLE`, the `nat` default-argument trick and the
    safe-bool typedef.
- The choice of pointer type (`has_pointer_type`, `pointer_type_switch` in
  unique_ptr/boost/unique_ptr.hpp) is not modelled. The pointer is always a
  natural number and the null pointer is 0.
- default_delete.hpp is not modelled beyond one step. Its `delete` and
  `delete[]` are memory releases, so they are stood in by `Tracker.Invoke`,
  which records the release. Its converting constructors are type gating.
- Reference deleters versus value deleters are not distinguished. Copying or
  moving `del`, and binding a reference, all become copying an opaque value;
  a moved-from deleter keeps its value. `get_deleter` is a plain accessor and
  is not modelled. `Swap` exchanges the deleters, which is what `swap_impl`
  does for value deleters (uptr_base.hpp:83-95). For a reference deleter
  `D = E&` (uptr_base.hpp:98-112, uptr_arrays.hpp:102-116), `E& d = del;
  del = other.del; other.del = d;` leaves both referenced deleter objects
  holding the other handle's original value, so they are not exchanged.
- `operator*` and `operator->` are not modelled. They dereference raw memory.
  `operator[]` reads element values from a map given as a parameter, since
  this model has no memory.
- The constructors from a null-pointer literal and from `std::auto_ptr` are not
  modelled as separate members. The null-literal constructors (uptr_base.hpp:177-187,
  uptr_arrays.hpp:181-186) do the same as the default constructor. The
  `auto_ptr` ones depend on a foreign library type.
- The other preprocessor branch (with rvalue references) is not modelled. It
  has the same runtime effects, except for the self-check in the array
  handle's converting assignment described above.
- Destroying a handle leaves its fields as they were, as in C++. A destroyed
  owning handle no longer satisfies `Valid()`, so it cannot be used again.
- The array handle's converting constructors also accept scalar handles,
  since they carry no constraints. The model takes an array handle only,
  because which type may be passed is decided at compile time.
- Resetting a handle to the pointer it already owns is excluded by the
  `Tracker.Adoptable(p)` precondition of both `Reset` methods. In the library
  that leaves the handle holding a released pointer, which it later releases
  again.
