/**
 * `MessageQueue<T>` (common/src/message_queue.rs): a double-ended queue
 * behind a lock. The lock only serialises access, so the model is the deque
 * itself, front first.
 */
module MessageQueue {
  import opened Wrappers

  class MessageQueue<T> {
    /** The elements, front first. */
    var deque: seq<T>

    /** `new` and `default`: an empty queue. */
    constructor ()
      ensures deque == []
    {
      deque := [];
    }

    method PushFront(elem: T)
      modifies this
      ensures deque == [elem] + old(deque)
    {
      deque := [elem] + deque;
    }

    method PushBack(elem: T)
      modifies this
      ensures deque == old(deque) + [elem]
    {
      deque := deque + [elem];
    }

    /** A copy of the first element, if any; the queue is left as it is. */
    method Front() returns (r: Option<T>)
      ensures r.None? <==> deque == []
      ensures r.Some? ==> r.value == deque[0]
    {
      if deque == [] {
        r := None;
      } else {
        r := Some(deque[0]);
      }
    }

    /** A copy of the last element, if any; the queue is left as it is. */
    method Back() returns (r: Option<T>)
      ensures r.None? <==> deque == []
      ensures r.Some? ==> r.value == deque[|deque| - 1]
    {
      if deque == [] {
        r := None;
      } else {
        r := Some(deque[|deque| - 1]);
      }
    }

    /** Removes and returns the first element; an empty queue is left unchanged. */
    method PopFront() returns (r: Option<T>)
      modifies this
      ensures old(deque) == [] ==> r.None? && deque == []
      ensures old(deque) != [] ==> r == Some(old(deque)[0]) && deque == old(deque)[1..]
    {
      if deque == [] {
        r := None;
      } else {
        r := Some(deque[0]);
        deque := deque[1..];
      }
    }

    /** Removes and returns the last element; an empty queue is left unchanged. */
    method PopBack() returns (r: Option<T>)
      modifies this
      ensures old(deque) == [] ==> r.None? && deque == []
      ensures old(deque) != [] ==>
        r == Some(old(deque)[|old(deque)| - 1]) && deque == old(deque)[..|old(deque)| - 1]
    {
      if deque == [] {
        r := None;
      } else {
        r := Some(deque[|deque| - 1]);
        deque := deque[..|deque| - 1];
      }
    }

    method IsEmpty() returns (b: bool)
      ensures b <==> |deque| == 0
    {
      b := deque == [];
    }

    method Clear()
      modifies this
      ensures deque == []
    {
      deque := [];
    }

    method Len() returns (n: nat)
      ensures n == |deque|
    {
      n := |deque|;
    }
  }

  // ---------------------------------------------------------------------------
  // FIFO order
  // ---------------------------------------------------------------------------

  /**
   * FIFO: `push_back` each element of `xs` in turn, then `pop_front` until it
   * returns `None`. The values handed out are the elements already queued,
   * then those of `xs` in the order they were pushed, and the queue ends empty.
   */
  method Fifo<T>(q: MessageQueue<T>, xs: seq<T>) returns (popped: seq<T>)
    modifies q
    ensures popped == old(q.deque) + xs
    ensures q.deque == []
  {
    var i := 0;
    while i < |xs|
      invariant 0 <= i <= |xs|
      invariant q.deque == old(q.deque) + xs[..i]
    {
      q.PushBack(xs[i]);
      assert xs[..i + 1] == xs[..i] + [xs[i]];
      i := i + 1;
    }
    assert xs[..i] == xs;
    ghost var queued := q.deque;
    popped := [];
    var r := q.PopFront();
    while r.Some?
      invariant r.Some? ==> popped + [r.value] + q.deque == queued
      invariant r.None? ==> popped == queued && q.deque == []
      decreases |q.deque| + (if r.Some? then 1 else 0)
    {
      popped := popped + [r.value];
      r := q.PopFront();
    }
  }
}
