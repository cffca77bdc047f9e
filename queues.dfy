/** Bounded FIFO append with drop-oldest eviction, shared by the events
    queue (capacity 5000) and the unidentified people queue (capacity 500). */
module Queues {
  import opened Values

  /** Append `x` at the tail; if the queue then holds more than `capacity`
      records, remove the head once. */
  function BoundedAppend<T>(q: seq<T>, x: T, capacity: nat): (r: seq<T>)
    requires 0 < capacity
    ensures |r| > 0 && r[|r| - 1] == x
    ensures |q| < capacity ==> r == q + [x]
    ensures |q| >= capacity ==> r == q[1..] + [x]
    ensures |q| <= capacity ==> |r| == Min(|q| + 1, capacity)
  {
    var appended := q + [x];
    if |appended| > capacity then appended[1..] else appended
  }

  /** Appending the records of `xs` one after the other. */
  function AppendAll<T>(q: seq<T>, xs: seq<T>, capacity: nat): seq<T>
    requires 0 < capacity
    decreases |xs|
  {
    if xs == [] then q else AppendAll(BoundedAppend(q, xs[0], capacity), xs[1..], capacity)
  }

  /** Whatever is appended, a queue that starts within its (positive) bound
      ends holding exactly the newest `capacity` records of the old contents
      followed by the appended ones, oldest evicted first. */
  lemma {:induction false} AppendAllKeepsNewest<T>(q: seq<T>, xs: seq<T>, capacity: nat)
    requires 0 < capacity && |q| <= capacity
    ensures AppendAll(q, xs, capacity) == (q + xs)[Max(0, |q| + |xs| - capacity)..]
    decreases |xs|
  {
    if xs != [] {
      var q1 := BoundedAppend(q, xs[0], capacity);
      var d := if |q| + 1 > capacity then 1 else 0;
      assert q1 == (q + [xs[0]])[d..];
      AppendAllKeepsNewest(q1, xs[1..], capacity);
      assert q1 + xs[1..] == (q + xs)[d..] by {
        assert q + xs == (q + [xs[0]]) + xs[1..];
      }
      assert |q1| + |xs[1..]| == |q| + |xs| - d;
      assert d + Max(0, |q1| + |xs[1..]| - capacity) == Max(0, |q| + |xs| - capacity);
    }
  }
}
