/** The bounded single-producer/single-consumer sample queue, modelled
    sequentially: a ring buffer over a fixed array, with the transfer rules of
    the queue library the player uses (push the longest prefix that fits and
    report how many; pop the head, or nothing when empty). */
module SampleQueue {
  import opened Wrappers

  /** Index of the `i`-th queued element in a ring of `n` slots starting at `head`. */
  function Wrap(head: nat, i: nat, n: nat): (r: nat)
    requires head < n && i < n
    ensures r < n
  {
    if head + i < n then head + i else head + i - n
  }

  class Queue<T(0)> {
    const buf: array<T>
    var head: nat
    var len: nat
    /** The queued samples, oldest first. */
    ghost var contents: seq<T>

    ghost predicate Valid()
      reads this, buf
    {
      && 0 < buf.Length
      && head < buf.Length
      && len <= buf.Length
      && |contents| == len
      && forall i :: 0 <= i < len ==> contents[i] == buf[Wrap(head, i, buf.Length)]
    }

    function Capacity(): nat
    {
      buf.Length
    }

    constructor (capacity: nat)
      requires capacity > 0
      ensures Valid() && fresh(buf)
      ensures Capacity() == capacity && contents == []
    {
      buf := new T[capacity];
      head, len := 0, 0;
      contents := [];
    }

    method IsEmpty() returns (empty: bool)
      requires Valid()
      ensures empty <==> contents == []
    {
      empty := len == 0;
    }

    method OccupiedLen() returns (n: nat)
      requires Valid()
      ensures n == |contents| && n <= Capacity()
    {
      n := len;
    }

    /** Removes and returns the oldest sample; an empty queue gives nothing and stays empty. */
    method TryPop() returns (x: Option<T>)
      requires Valid()
      modifies this
      ensures Valid()
      ensures old(contents) == [] ==> x == None && contents == []
      ensures old(contents) != [] ==> x == Some(old(contents)[0]) && contents == old(contents)[1..]
    {
      if len == 0 {
        x := None;
      } else {
        x := Some(buf[head]);
        head := if head + 1 == buf.Length then 0 else head + 1;
        len := len - 1;
        contents := contents[1..];
      }
    }

    /** Appends `x` when there is room; a full queue is left as it is. */
    method TryPush(x: T) returns (pushed: bool)
      requires Valid()
      modifies this, buf
      ensures Valid()
      ensures pushed <==> |old(contents)| < Capacity()
      ensures contents == if pushed then old(contents) + [x] else old(contents)
    {
      pushed := len < buf.Length;
      if pushed {
        buf[Wrap(head, len, buf.Length)] := x;
        len := len + 1;
        contents := contents + [x];
      }
    }

    /** Appends the longest prefix of `xs` that fits and returns its length. */
    method PushSlice(xs: seq<T>) returns (n: nat)
      requires Valid()
      modifies this, buf
      ensures Valid()
      ensures n == Min(|xs|, Capacity() - |old(contents)|)
      ensures contents == old(contents) + xs[..n]
    {
      n := 0;
      var room := len < buf.Length;
      while n < |xs| && room
        invariant Valid()
        invariant n <= |xs|
        invariant room <==> |contents| < Capacity()
        invariant |contents| == |old(contents)| + n
        invariant contents == old(contents) + xs[..n]
        decreases |xs| - n
      {
        var _ := TryPush(xs[n]);
        assert xs[..n + 1] == xs[..n] + [xs[n]];
        n := n + 1;
        room := len < buf.Length;
      }
    }
  }
}
