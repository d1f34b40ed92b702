/**
  Client programs that combine the handles' operations, each against a fresh
  tracker, and state the complete release log that results. They are proved
  from the operations' contracts alone.
 */
module Scenarios {
  import opened Tracking
  import opened ScalarHandle
  import opened ArrayHandle

  /**
    Construct over `p`, `reset(q)`, destroy: `p` is released first (with the
    handle already holding `q`), then `q`; each exactly once.
   */
  method ResetThenDestroy(p: Ptr, q: Ptr) returns (log: seq<Release>)
    requires p != Null && q != Null && p != q
    ensures log == [Release(p, DefaultDelete, q), Release(q, DefaultDelete, q)]
    ensures Count(log, p) == 1 && Count(log, q) == 1
  {
    var t := new Tracker();
    var h := new UniquePtr.FromPointer(t, p);
    h.Reset(q);
    h.Destroy();
    log := t.log;
    CountDisposal([Release(p, DefaultDelete, q)], q, DefaultDelete, q, p);
    CountDisposal([Release(p, DefaultDelete, q)], q, DefaultDelete, q, q);
  }

  /**
    Move construction releases nothing; afterwards the moved-from handle owns
    nothing and only the new owner releases `p`, with the deleter it took over.
   */
  method MoveThenDestroyBoth(p: Ptr, d: Deleter) returns (afterMove: seq<Release>, log: seq<Release>)
    requires p != Null
    ensures afterMove == []
    ensures log == [Release(p, d, p)]
  {
    var t := new Tracker();
    var a := new UniquePtr.WithDeleter(t, p, d);
    var b := new UniquePtr.FromMoved(a);
    afterMove := t.log;
    a.Destroy();
    b.Destroy();
    log := t.log;
  }

  /** After `release()` the handle's destruction releases nothing: the pointer is the caller's. */
  method ReleaseEscapes(p: Ptr) returns (r: Ptr, log: seq<Release>)
    ensures r == p && log == []
  {
    var t := new Tracker();
    var h := new UniquePtr.FromPointer(t, p);
    r := h.Release();
    h.Destroy();
    log := t.log;
  }

  /**
    Two handles with different deleters swap: each pointer is later released
    once, by the deleter that travelled with it.
   */
  method SwapThenDestroyBoth(p: Ptr, q: Ptr) returns (log: seq<Release>)
    requires p != Null && q != Null && p != q
    ensures log == [Release(q, Custom(2), q), Release(p, Custom(1), p)]
  {
    var t := new Tracker();
    var a := new UniquePtr.WithDeleter(t, p, Custom(1));
    var b := new UniquePtr.WithDeleter(t, q, Custom(2));
    a.Swap(b);
    a.Destroy();
    b.Destroy();
    log := t.log;
  }

  /**
    Move assignment releases the destination's old pointer with the
    destination's old deleter, then the destination owns the source's pointer
    and deleter.
   */
  method MoveAssignThenDestroyBoth(p: Ptr, q: Ptr) returns (log: seq<Release>)
    requires p != Null && q != Null && p != q
    ensures log == [Release(p, Custom(1), q), Release(q, Custom(2), q)]
  {
    var t := new Tracker();
    var a := new UniquePtr.WithDeleter(t, p, Custom(1));
    var b := new UniquePtr.WithDeleter(t, q, Custom(2));
    a.MoveAssign(b);
    b.Destroy();
    a.Destroy();
    log := t.log;
  }

  /**
    Assigning null to a scalar handle nulls the field before its deleter runs;
    on an array handle the deleter runs while the field still holds the pointer.
   */
  method NullingOrder(p: Ptr, q: Ptr) returns (scalarSeen: Ptr, arraySeen: Ptr)
    requires p != Null && q != Null && p != q
    ensures scalarSeen == Null && arraySeen == q
  {
    var t := new Tracker();
    var s := new UniquePtr.FromPointer(t, p);
    var a := new UniqueArray.FromPointer(t, q);
    s.AssignNull();
    scalarSeen := t.log[0].seen;
    a.AssignNull();
    arraySeen := t.log[1].seen;
  }

  /** Element access on an array handle reads the owned block and changes nothing. */
  method IndexOwned(p: Ptr, block: seq<int>, i: nat) returns (x: int, log: seq<Release>)
    requires p != Null && i < |block|
    ensures x == block[i] && log == []
  {
    var t := new Tracker();
    var a := new UniqueArray.FromPointer(t, p);
    x := a.At(map[p := block], i);
    log := t.log;
  }
}
