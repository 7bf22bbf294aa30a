/** The generic first-in first-out queue of src/utils.ts, backed by a JavaScript array. */
module Utils {
  import opened Wrappers

  class Queue<T> {
    /** The array `items`, front first. */
    var items: seq<T>

    constructor ()
      ensures items == []
    {
      items := [];
    }

    /** `size()`: the number of queued elements. */
    function Size(): (r: nat)
      reads this
      ensures r == |items|
    {
      |items|
    }

    /** `isEmpty()`: the array has no elements. */
    function IsEmpty(): (r: bool)
      reads this
      ensures r <==> Size() == 0
    {
      |items| == 0
    }

    /** `front()`: the first element, without removing it, or null when empty. */
    function Front(): (r: Option<T>)
      reads this
      ensures r.None? <==> IsEmpty()
      ensures r.Some? ==> r.value == items[0]
    {
      if IsEmpty() then None else Some(items[0])
    }

    /** `enqueue(x)`: `push` at the back. */
    method Enqueue(x: T)
      modifies this
      ensures items == old(items) + [x]
      ensures Size() == old(Size()) + 1
    {
      items := items + [x];
    }

    /** `dequeue()`: `shift` the front element off, or null (and no change) when empty. */
    method Dequeue() returns (r: Option<T>)
      modifies this
      ensures r == old(Front())
      ensures old(IsEmpty()) ==> items == old(items)
      ensures !old(IsEmpty()) ==> [r.value] + items == old(items)
    {
      if IsEmpty() {
        return None;
      }
      r := Some(items[0]);
      items := items[1..];
    }

    /** `clear()`: a new empty array. */
    method Clear()
      modifies this
      ensures IsEmpty()
    {
      items := [];
    }

    /** `requeueFront(x)`: `unshift` at the front. */
    method RequeueFront(x: T)
      modifies this
      ensures items == [x] + old(items)
      ensures Front() == Some(x)
    {
      items := [x] + items;
    }

    /**
      Putting back what `dequeue` returned restores a non-empty queue: the
      use `requeueFront` exists for.
     */
    method DequeueThenRequeue()
      requires !IsEmpty()
      modifies this
      ensures items == old(items)
    {
      var x := Dequeue();
      RequeueFront(x.value);
    }
  }
}
