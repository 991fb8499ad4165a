/** The growing ring buffer behind every request and server list (src/memcache_queue.c). */
module RingQueue {
  import opened Wrappers
  import opened Sequences

  const QUEUE_PREALLOC := 25

  class Queue<T(0,==,!new)> {
    var items: array<T>   // `alloc` is items.Length; a queue that was never pushed to has no slots
    var head: nat
    var tail: nat
    var len: nat

    ghost predicate Valid()
      reads this
    {
      && len <= items.Length
      && (items.Length == 0 ==> head == tail == 0)
      && (items.Length != 0 ==> head < items.Length && tail < items.Length)
      && (len == 0 ==> head == tail)
      && (len != 0 ==> head == Slot(tail, items.Length, len - 1))
    }

    /** The array index of the i-th queued item, counted from the tail. */
    static function Slot(tail: nat, alloc: nat, i: nat): int {
      if tail + i < alloc then tail + i else i - (alloc - tail)
    }

    /** The items of a ring of cells, read from the tail. */
    static ghost function Ring(cells: seq<T>, tail: nat, len: nat): (s: seq<T>)
      requires len <= |cells| && (len != 0 ==> tail < |cells|)
      ensures |s| == len
    {
      seq(len, i requires 0 <= i < len => cells[Slot(tail, |cells|, i)])
    }

    /** The queued items, oldest first. */
    ghost function Contents(): (s: seq<T>)
      reads this, items
      requires Valid()
    {
      Ring(items[..], tail, len)
    }

    constructor ()
      ensures Valid() && Contents() == [] && fresh(items)
    {
      items := new T[0];
      head, tail, len := 0, 0, 0;
    }

    /** mmc_queue_item */
    method Item(i: nat) returns (x: T)
      requires Valid() && i < len
      ensures x == Contents()[i]
    {
      x := items[Slot(tail, items.Length, i)];
    }

    method Contains(x: T) returns (found: bool)
      requires Valid()
      ensures found <==> x in Contents()
    {
      for i := 0 to len
        invariant x !in Contents()[..i]
      {
        var y := Item(i);
        if y == x { return true; }
        assert Contents()[..i + 1] == Contents()[..i] + [y];
      }
      assert Contents()[..len] == Contents();
      return false;
    }

    /** The reallocation inside a push: the segment from the tail up moves to the end of the new array. */
    method Grow()
      requires Valid() && len == items.Length
      modifies this
      ensures Valid() && fresh(items) && items.Length == old(items.Length) + 1 + QUEUE_PREALLOC
      ensures Contents() == old(Contents()) && len == old(len)
    {
      var increase := 1 + QUEUE_PREALLOC;
      var old_items := items;
      var bigger := new T[old_items.Length + increase];
      forall k | 0 <= k < old_items.Length {
        bigger[k] := old_items[k];
      }
      if head < tail {
        forall k | tail <= k < old_items.Length {
          bigger[k + increase] := old_items[k];
        }
        ghost var was := Contents();
        items := bigger;
        tail := tail + increase;
        assert forall i :: 0 <= i < len ==> Contents()[i] == was[i];
      } else {
        ghost var was := Contents();
        items := bigger;
        assert forall i :: 0 <= i < len ==> Contents()[i] == was[i];
      }
    }

    method Push(x: T)
      requires Valid()
      modifies this, items
      ensures Valid() && (items == old(items) || fresh(items))
      ensures Contents() == PushUnique(old(Contents()), x)
    {
      var present := Contains(x);
      if present { return; }
      if len >= items.Length {
        Grow();
      }
      Append(x);
    }

    /** Stores at the head, one slot on from the last item unless the queue is empty. */
    method Append(x: T)
      requires Valid() && len < items.Length
      modifies this, items
      ensures Valid() && items == old(items)
      ensures Contents() == old(Contents()) + [x]
    {
      if len != 0 {
        head := head + 1;
        if head >= items.Length { head := 0; }
      }
      items[head] := x;
      len := len + 1;
      RingAppend(old(items[..]), tail, len - 1, x);
      assert items[..] == old(items[..])[Slot(tail, items.Length, len - 1) := x];
    }

    static lemma RingAppend(cells: seq<T>, tail: nat, len: nat, x: T)
      requires len < |cells| && tail < |cells|
      ensures Ring(cells[Slot(tail, |cells|, len) := x], tail, len + 1) == Ring(cells, tail, len) + [x]
    {
    }

    method Pop() returns (x: Option<T>)
      requires Valid()
      modifies this
      ensures Valid() && items == old(items)
      ensures old(Contents()) == [] ==> x == None && Contents() == []
      ensures old(Contents()) != [] ==> x == Some(old(Contents())[0]) && Contents() == old(Contents())[1..]
    {
      if len == 0 { return None; }
      ghost var was := Contents();
      x := Some(items[tail]);
      len := len - 1;
      if len != 0 {
        tail := tail + 1;
        if tail >= items.Length { tail := 0; }
      }
      assert forall i :: 0 <= i < len ==> Contents()[i] == was[i + 1];
    }

    /** Copies the source's array and cursors, reusing the target's own array when the sizes agree. */
    method Copy(source: Queue<T>)
      requires Valid() && source.Valid() && source != this && source.items != items
      modifies this, items
      ensures Valid() && (items == old(items) || fresh(items))
      ensures Contents() == old(source.Contents()) && source.Contents() == old(source.Contents())
    {
      if items.Length != source.items.Length {
        items := new T[source.items.Length];
      }
      forall k | 0 <= k < source.items.Length {
        items[k] := source.items[k];
      }
      head, tail, len := source.head, source.tail, source.len;
      assert items[..] == source.items[..];
      assert forall i :: 0 <= i < len ==> Contents()[i] == source.Contents()[i];
    }

    /** Pops everything into a fresh queue, leaving `x` behind. */
    method Remove(x: T)
      requires Valid() && NoDuplicates(Contents())
      modifies this
      ensures Valid() && fresh(items)
      ensures Contents() == Without(old(Contents()), x)
    {
      var original := new Queue<T>.View(items, head, tail, len);
      items, head, tail, len := new T[0], 0, 0, 0;
      assert Contents() == [];
      PushAllExcept(original, x);
    }

    /** A second queue structure over the same array, as a struct assignment makes it. */
    constructor View(items: array<T>, head: nat, tail: nat, len: nat)
      ensures this.items == items && this.head == head && this.tail == tail && this.len == len
    {
      this.items, this.head, this.tail, this.len := items, head, tail, len;
    }

    method PushAllExcept(original: Queue<T>, x: T)
      requires Valid() && original.Valid() && original != this && original.items != items
      requires Contents() == [] && NoDuplicates(original.Contents())
      modifies this, items, original
      ensures Valid() && (items == old(items) || fresh(items))
      ensures Contents() == Without(old(original.Contents()), x)
    {
      ghost var all := original.Contents();
      ghost var k := 0;
      while original.len != 0
        invariant Valid() && original.Valid() && original.items == old(original.items) && original.items != items
        invariant items == old(items) || fresh(items)
        invariant k <= |all| && original.Contents() == all[k..]
        invariant Contents() == Without(all[..k], x)
        decreases original.len
      {
        KeepUnless(original, x);
        WithoutStep(all, k, x);
        k := k + 1;
      }
      assert all[..k] == all;
    }

    static lemma WithoutStep(all: seq<T>, k: nat, x: T)
      requires k < |all| && NoDuplicates(all)
      ensures all[k..][0] == all[k] && all[k..][1..] == all[k + 1..]
      ensures var kept := Without(all[..k], x);
              Without(all[..k + 1], x) == if all[k] == x then kept else PushUnique(kept, all[k])
    {
      assert all[..k + 1] == all[..k] + [all[k]];
      WithoutSnoc(all[..k], all[k], x);
    }

    /** One turn of the loop: the oldest item of `original` moves over, unless it is `x` itself. */
    method KeepUnless(original: Queue<T>, x: T)
      requires Valid() && original.Valid() && original != this && original.items != items
      requires original.Contents() != []
      modifies this, items, original
      ensures Valid() && original.Valid() && (items == old(items) || fresh(items))
      ensures original.items == old(original.items) && original.Contents() == old(original.Contents())[1..]
      ensures var y := old(original.Contents())[0];
              Contents() == if y == x then old(Contents()) else PushUnique(old(Contents()), y)
    {
      var item := original.Pop();
      if item.value != x {
        Push(item.value);
      }
    }
  }
}
