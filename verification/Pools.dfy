// The object pool: a bounded queue that drops what does not fit.
module Pools {
  import opened Base
  import opened Objects
  import M = Middleware

  // Pool of one kind of object; objects are numbered in the order in which the
  // factory makes them, and None is the zero value.
  class Pool {
    const kind: Kind
    var queue: seq<Id>
    var made: nat

    constructor (k: Kind)
      ensures kind == k && queue == [] && made == 0
    {
      kind, queue, made := k, [], 0;
    }

    ghost predicate Valid()
      reads this
    {
      && |queue| <= 2048 && (forall i :: 0 <= i < |queue| ==> queue[i] < made)
      && (forall i, j :: 0 <= i < j < |queue| ==> queue[i] != queue[j])
    }

    // This pool is the one the instance s has for its kind.
    ghost predicate Is(s: M.Sys)
      reads this
    {
      queue == s.Queue(kind) && made == s.Made(kind)
    }

    method Factory() returns (item: Id)
      modifies `made
      ensures item == old(made) && made == old(made) + 1
    {
      item, made := made, made + 1;
    }

    // Get hands out the object that has been there longest, or a new one; never one
    // that is still in the pool.
    method Get(ghost s: M.Sys, ghost r: Id) returns (item: Id)
      requires Valid()
      modifies this
      ensures Valid() && item < made && item !in queue
      ensures old(queue) != [] ==> item == old(queue[0]) && queue == old(queue[1..]) && made == old(made)
      ensures old(queue) == [] ==> item == old(made) && queue == [] && made == old(made) + 1
      ensures old(Is(s)) ==> item == s.Pick(kind) && Is(s.Take(kind, r))
    {
      if queue != [] {
        item := queue[0];
        queue := queue[1..];
      } else {
        item := Factory();
      }
    }

    // Put of an object that is not in the pool keeps it, or drops it if the pool is
    // full; the zero value panics.
    method Put(item: Option<Id>, ghost s: M.Sys) returns (panicked: bool)
      requires Valid() && (item.Some? ==> item.value < made && item.value !in queue)
      modifies `queue
      ensures Valid()
      ensures panicked <==> item.None?
      ensures item.None? ==> queue == old(queue)
      ensures item.Some? && |old(queue)| < 2048 ==> queue == old(queue) + [item.value]
      ensures |old(queue)| == 2048 ==> queue == old(queue)
      ensures item.Some? && old(Is(s)) ==> Is(s.Give(Obj(kind, item.value)))
    {
      match item {
        case None => return true;
        case Some(id) =>
          if |queue| < POOL_CAPACITY { queue := queue + [id]; }
          return false;
      }
    }
  }
}
