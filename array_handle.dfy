/**
  The array owning handle `unique_ptr<T[], D>`, in the branch built without
  rvalue references (move emulation). Same state machine as the scalar handle,
  plus element access, and an argument-less `reset()` that applies the deleter
  before it nulls the field.
 */
module ArrayHandle {
  import opened Tracking

  class UniqueArray {
    /** The tracker that records what this handle's deleter releases. */
    const tracker: Tracker
    var ptr: Ptr
    var del: Deleter

    /**
      The tracker is consistent, this handle is the recorded owner of its
      non-null pointer, and it is recorded as the owner of nothing else.
     */
    ghost predicate Valid()
      reads this, tracker
    {
      && tracker.Valid()
      && OwnsExactly(tracker.owner, this, ptr)
    }

    /** `unique_ptr()`: owns nothing, with a value-initialised deleter. */
    constructor (tracker: Tracker)
      requires tracker.Valid()
      ensures Valid() && this.tracker == tracker
      ensures ptr == Null && del == DefaultDelete
    {
      this.tracker := tracker;
      ptr := Null;
      del := DefaultDelete;
    }

    /** `explicit unique_ptr(p)`: owns `p`, with a value-initialised deleter. */
    constructor FromPointer(tracker: Tracker, p: Ptr)
      requires tracker.Valid() && tracker.Adoptable(p)
      modifies tracker
      ensures Valid() && this.tracker == tracker
      ensures ptr == p && del == DefaultDelete
      ensures tracker.log == old(tracker.log)
      ensures tracker.owner == Assign(old(tracker.owner), p, this)
    {
      this.tracker := tracker;
      ptr := p;
      del := DefaultDelete;
      new;
      if p != Null {
        tracker.owner := tracker.owner[p := this];
      }
    }

    /** `unique_ptr(p, d)`, both the copying and the moving overload: owns `p` with deleter `d`. */
    constructor WithDeleter(tracker: Tracker, p: Ptr, d: Deleter)
      requires tracker.Valid() && tracker.Adoptable(p)
      modifies tracker
      ensures Valid() && this.tracker == tracker
      ensures ptr == p && del == d
      ensures tracker.log == old(tracker.log)
      ensures tracker.owner == Assign(old(tracker.owner), p, this)
    {
      this.tracker := tracker;
      ptr := p;
      del := d;
      new;
      if p != Null {
        tracker.owner := tracker.owner[p := this];
      }
    }

    /**
      Move construction `unique_ptr(move(u))` (the three converting
      constructors, which in this branch also serve the same-type case): takes
      over `u`'s pointer through `u.release()` and copies its deleter; releases
      nothing.
     */
    constructor FromMoved(u: UniqueArray)
      requires u.Valid()
      modifies u, u.tracker
      ensures Valid() && u.Valid() && tracker == u.tracker
      ensures ptr == old(u.ptr) && del == old(u.del)
      ensures u.ptr == Null && u.del == old(u.del)
      ensures tracker.log == old(u.tracker.log)
      ensures tracker.owner == Assign(old(u.tracker.owner), old(u.ptr), this)
    {
      tracker := u.tracker;
      var p := u.Release();
      ptr := p;
      del := u.del;
      new;
      if p != Null {
        tracker.owner := tracker.owner[p := this];
      }
    }

    /** `get()`: the pointer this handle owns, if any; nobody else owns it and it has not been released. */
    function Get(): (p: Ptr)
      reads this, tracker
      requires Valid()
      ensures p != Null ==> p in tracker.owner && tracker.owner[p] == this
      ensures NeverReleased(tracker.log, p)
    {
      ptr
    }

    /**
      `operator[](i)`: element `i` of the owned array, read from `mem`, what
      each allocation holds. The library performs no check; the index must lie
      within a non-null owned block.
     */
    function At<T>(mem: map<Ptr, seq<T>>, i: nat): (x: T)
      reads this, tracker
      requires Valid() && ptr != Null && ptr in mem && i < |mem[ptr]|
      ensures x == mem[Get()][i]
    {
      mem[ptr][i]
    }

    /** The boolean test: true exactly when this handle owns a resource. */
    predicate IsOwning()
      reads this, tracker
      requires Valid()
      ensures IsOwning() <==> Get() in tracker.owner
      ensures !IsOwning() <==> Get() == Null
    {
      ptr != Null
    }

    /**
      `release()`: gives the pointer up to the caller without applying the
      deleter; the caller now holds an adoptable pointer.
     */
    method Release() returns (p: Ptr)
      requires Valid()
      modifies this, tracker
      ensures Valid()
      ensures p == old(ptr) && ptr == Null && del == old(del)
      ensures tracker.log == old(tracker.log)
      ensures tracker.Adoptable(p)
      ensures tracker.owner == old(tracker.owner) - {p}
    {
      p := ptr;
      ptr := Null;
      if p != Null {
        tracker.owner := tracker.owner - {p};
      }
    }

    /**
      `reset()`: when the handle owns a pointer, applies the deleter to it while
      the field still holds it, then nulls the field; otherwise does nothing.
     */
    method ResetToNull()
      requires Valid()
      modifies this, tracker
      ensures Valid()
      ensures ptr == Null && del == old(del)
      ensures tracker.log == old(tracker.log) + Disposal(old(ptr), old(del), old(ptr))
      ensures tracker.owner == old(tracker.owner) - {old(ptr)}
    {
      if ptr != Null {
        tracker.owner := tracker.owner - {ptr};
        tracker.Invoke(ptr, del, ptr);
        ptr := Null;
      }
    }

    /**
      `reset(p)`: stores `p` first, then applies the deleter to the old pointer
      if it was non-null, so the deleter sees the new pointer in the handle.
     */
    method Reset(p: Ptr)
      requires Valid() && tracker.Adoptable(p)
      modifies this, tracker
      ensures Valid()
      ensures ptr == p && del == old(del)
      ensures tracker.log == old(tracker.log) + Disposal(old(ptr), old(del), p)
      ensures tracker.owner == Assign(old(tracker.owner) - {old(ptr)}, p, this)
    {
      var oldPtr := ptr;
      ptr := p;
      ghost var owner := tracker.owner - {oldPtr};
      if p != Null {
        owner := owner[p := this];
      }
      tracker.owner := owner;
      if oldPtr != Null {
        tracker.Invoke(oldPtr, del, ptr);
      }
    }

    /**
      `swap(other)`: exchanges pointers and deleters, applies no deleter, and
      does nothing when `other` is this handle itself.
     */
    method Swap(other: UniqueArray)
      requires Valid() && other.Valid() && other.tracker == tracker
      modifies this, other, tracker
      ensures Valid() && other.Valid()
      ensures ptr == old(other.ptr) && del == old(other.del)
      ensures other.ptr == old(ptr) && other.del == old(del)
      ensures tracker.log == old(tracker.log)
      ensures other == this ==> tracker.owner == old(tracker.owner)
      ensures other != this ==> tracker.owner == Assign(Assign(old(tracker.owner), old(other.ptr), this), old(ptr), other)
    {
      if this != other {
        var tmp := ptr;
        ptr := other.ptr;
        other.ptr := tmp;
        var d := del;
        del := other.del;
        other.del := d;
        ghost var owner := tracker.owner;
        if ptr != Null {
          owner := owner[ptr := this];
        }
        if other.ptr != Null {
          owner := owner[other.ptr := other];
        }
        tracker.owner := owner;
      }
    }

    /**
      The destructor: applies the deleter to the pointer exactly when it is
      non-null. The fields are left as they were; the handle is dead.
     */
    method Destroy()
      requires Valid()
      modifies tracker
      ensures tracker.Valid()
      ensures tracker.log == old(tracker.log) + Disposal(ptr, del, ptr)
      ensures tracker.owner == old(tracker.owner) - {ptr}
    {
      if ptr != Null {
        tracker.owner := tracker.owner - {ptr};
        tracker.Invoke(ptr, del, ptr);
      }
    }

    /**
      Same-type move assignment `*this = move(r)`: nothing happens when `r` is
      this handle; otherwise the old pointer is released by the old deleter,
      this handle takes `r`'s pointer and deleter, and `r` ends empty.
     */
    method MoveAssign(r: UniqueArray)
      requires Valid() && r.Valid() && r.tracker == tracker
      modifies this, r, tracker
      ensures Valid() && r.Valid()
      ensures r == this ==> ptr == old(ptr) && del == old(del) && tracker.log == old(tracker.log)
      ensures r != this ==> ptr == old(r.ptr) && del == old(r.del) && r.ptr == Null && r.del == old(r.del)
      ensures r != this ==> tracker.log == old(tracker.log) + Disposal(old(ptr), old(del), old(r.ptr))
      ensures r == this ==> tracker.owner == old(tracker.owner)
      ensures r != this ==> tracker.owner == Assign(old(tracker.owner) - {old(ptr)}, old(r.ptr), this)
    {
      if r != this {
        var p := r.Release();
        Reset(p);
        del := r.del;
      }
    }

    /**
      Converting move assignment from a related handle type. In this branch it
      has no self-check (the other branch has one), and its contract shows that
      none is needed: for `r == this`, `reset(r.release())` re-adopts the
      pointer it just released.
     */
    method ConvertingMoveAssign(r: UniqueArray)
      requires Valid() && r.Valid() && r.tracker == tracker
      modifies this, r, tracker
      ensures Valid() && r.Valid()
      ensures r == this ==> ptr == old(ptr) && del == old(del) && tracker.log == old(tracker.log)
      ensures r != this ==> ptr == old(r.ptr) && del == old(r.del) && r.ptr == Null && r.del == old(r.del)
      ensures r != this ==> tracker.log == old(tracker.log) + Disposal(old(ptr), old(del), old(r.ptr))
      ensures r == this ==> tracker.owner == old(tracker.owner)
      ensures r != this ==> tracker.owner == Assign(old(tracker.owner) - {old(ptr)}, old(r.ptr), this)
    {
      var p := r.Release();
      Reset(p);
      del := r.del;
    }

    /**
      Assignment from null, through the argument-less `reset()`: unlike the
      scalar handle, the deleter runs before the field is nulled. The library
      compiles it only when the compiler has `nullptr`, so a strict C++03
      build lacks it.
     */
    method AssignNull()
      requires Valid()
      modifies this, tracker
      ensures Valid()
      ensures ptr == Null && del == old(del)
      ensures tracker.log == old(tracker.log) + Disposal(old(ptr), old(del), old(ptr))
      ensures tracker.owner == old(tracker.owner) - {old(ptr)}
    {
      ResetToNull();
    }
  }
}
