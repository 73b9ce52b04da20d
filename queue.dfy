/** `Gerbil.Queue`: a FIFO queue kept as an array plus a read offset. Pulling
    advances the offset; once the consumed prefix is at least half of the
    array, the array is sliced so that it starts at the first unconsumed item
    and the offset goes back to zero. */
module GerbilQueue {
  import opened Wrappers

  class Queue<T> {
    // the JavaScript array `queue`, reassigned when it is compacted
    var store: seq<T>
    // index of the next item to pull
    var offset: nat
    // the items still to be pulled, oldest first
    ghost var Contents: seq<T>

    /** Representation invariant: either the store is empty and the offset
        zero, or the consumed prefix is less than half of the store; and the
        logical contents are the unconsumed suffix. */
    ghost predicate Valid()
      reads this
    {
      && ((store == [] && offset == 0) || 2 * offset < |store|)
      && Contents == store[offset..]
    }

    constructor ()
      ensures Valid() && Contents == []
      ensures store == [] && offset == 0
    {
      store := [];
      offset := 0;
      Contents := [];
    }

    /** `length()`: the number of unconsumed items. */
    function Length(): (n: nat)
      reads this
      requires Valid()
      ensures n == |Contents|
      ensures n == 0 <==> store == []
    {
      |store| - offset
    }

    /** The read `queue[offset]` in `pull` is in bounds whenever the store is
        not empty. */
    lemma HeadInBounds()
      requires Valid() && store != []
      ensures offset < |store| && store[offset] == Contents[0]
    {
    }

    /** Compaction keeps the physical store within twice the logical size. */
    lemma StoreBounded()
      requires Valid()
      ensures |store| <= 2 * |Contents|
    {
    }

    /** `push(item)`: append to the tail. */
    method Push(item: T)
      requires Valid()
      modifies this
      ensures Valid()
      ensures Contents == old(Contents) + [item]
      ensures store == old(store) + [item] && offset == old(offset)
    {
      store := store + [item];
      Contents := Contents + [item];
    }

    /** `pull()`: remove and return the head, or return nothing (and change
        nothing) when the store is empty. The store is sliced to its
        unconsumed suffix exactly when the advanced offset reaches half of
        it. */
    method Pull() returns (item: Option<T>)
      requires Valid()
      modifies this
      ensures Valid()
      ensures old(Contents) == [] ==>
                item == None && store == old(store) && offset == old(offset) && Contents == []
      ensures old(Contents) != [] ==>
                item == Some(old(Contents)[0]) && Contents == old(Contents)[1..]
      ensures offset == 0 || offset == old(offset) + 1
      ensures old(store) != [] && 2 * (old(offset) + 1) >= |old(store)| ==>
                store == old(store)[old(offset) + 1..] && offset == 0
      ensures old(store) != [] && 2 * (old(offset) + 1) < |old(store)| ==>
                store == old(store) && offset == old(offset) + 1
    {
      if |store| == 0 {
        return None;
      }
      item := Some(store[offset]);
      offset := offset + 1;
      if offset * 2 >= |store| {
        store := store[offset..];
        offset := 0;
      }
      Contents := Contents[1..];
    }
  }
}
