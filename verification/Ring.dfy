/** The ring between the network thread and the keyer (src/circular_buffer.h), refined to a
    sequence that keeps at most its capacity. */
module Ring {

  /** A full ring forgets its oldest item to take a new one. */
  function Pushed<T>(contents: seq<T>, capacity: nat, item: T): seq<T>
    requires |contents| <= capacity
  {
    (if |contents| == capacity && capacity > 0 then contents[1..] else contents) + [item]
  }

  lemma {:induction false} NextIndex(i: nat, n: nat)
    requires i < n
    ensures (i + 1) % n == if i + 1 == n then 0 else i + 1
  {
    if i + 1 < n {
      assert (i + 1) / n == 0;
    }
  }

  class CircularBuffer<T(0)> {
    const maxSize: nat
    const zero: T
    var buf: array<T>
    var head: nat
    var tail: nat
    var full: bool
    /** The items in the ring, oldest first. */
    ghost var contents: seq<T>

    ghost predicate Valid()
      reads this, buf
    {
      && 0 < maxSize == buf.Length
      && head < maxSize && tail < maxSize
      && |contents| == (if full then maxSize else if head >= tail then head - tail else maxSize + head - tail)
      && (full ==> head == tail)
      && forall i {:trigger contents[i]} :: 0 <= i < |contents| ==> contents[i] == buf[Place(i)]
    }

    /** The place of the i-th oldest item. */
    ghost function Place(i: nat): (p: nat)
      requires tail < maxSize && i < maxSize
      reads this
      ensures p < maxSize
    {
      if tail + i < maxSize then tail + i else tail + i - maxSize
    }

    /** zero is what T() gives. */
    constructor (size: nat, zero: T)
      requires 0 < size
      ensures Valid() && fresh(buf)
      ensures maxSize == size && this.zero == zero && contents == []
    {
      maxSize := size;
      this.zero := zero;
      buf := new T[size];
      head, tail, full := 0, 0, false;
      contents := [];
    }

    method Put(item: T)
      requires Valid()
      modifies this, buf
      ensures Valid() && buf == old(buf)
      ensures contents == Pushed(old(contents), maxSize, item)
    {
      NextIndex(head, maxSize);
      NextIndex(tail, maxSize);
      contents := Pushed(contents, maxSize, item);
      buf[head] := item;
      if full {
        tail := (tail + 1) % maxSize;
      }
      head := (head + 1) % maxSize;
      full := head == tail;
    }

    method Get() returns (item: T)
      requires Valid()
      modifies this
      ensures Valid() && buf == old(buf)
      ensures old(contents) == [] ==> item == zero && contents == []
      ensures old(contents) != [] ==> item == old(contents)[0] && contents == old(contents)[1..]
    {
      var empty := Empty();
      if empty {
        return zero;
      }
      NextIndex(tail, maxSize);
      assert contents[0] == buf[Place(0)];
      item := buf[tail];
      full := false;
      tail := (tail + 1) % maxSize;
      contents := contents[1..];
    }

    method Peek() returns (item: T)
      requires Valid()
      ensures item == if contents == [] then zero else contents[0]
    {
      var empty := Empty();
      if empty {
        return zero;
      }
      assert contents[0] == buf[Place(0)];
      item := buf[tail];
    }

    method Reset()
      requires Valid()
      modifies this
      ensures Valid() && buf == old(buf)
      ensures contents == []
    {
      head := tail;
      full := false;
      contents := [];
    }

    method Empty() returns (b: bool)
      requires Valid()
      ensures b <==> contents == []
    {
      b := !full && head == tail;
    }

    method Full() returns (b: bool)
      requires Valid()
      ensures b <==> |contents| == maxSize
    {
      b := full;
    }

    method Size() returns (n: nat)
      requires Valid()
      ensures n == |contents|
    {
      n := maxSize;
      if !full {
        if head >= tail {
          n := head - tail;
        } else {
          n := maxSize + head - tail;
        }
      }
    }
  }

  // ---- what the ring keeps ----

  function PutAll<T>(contents: seq<T>, capacity: nat, items: seq<T>): (r: seq<T>)
    requires 0 < capacity && |contents| <= capacity
    ensures |r| <= capacity
    decreases |items|
  {
    if items == [] then contents else PutAll(Pushed(contents, capacity, items[0]), capacity, items[1..])
  }

  function Newest<T>(items: seq<T>, n: nat): seq<T> {
    if |items| <= n then items else items[|items| - n..]
  }

  /** However many items are put, the ring holds the newest of them, in order. */
  lemma {:induction false} KeepsTheNewest<T>(contents: seq<T>, capacity: nat, items: seq<T>)
    requires 0 < capacity && |contents| <= capacity
    ensures PutAll(contents, capacity, items) == Newest(contents + items, capacity)
    decreases |items|
  {
    if items == [] {
      assert contents + items == contents;
    } else {
      var next := Pushed(contents, capacity, items[0]);
      KeepsTheNewest(next, capacity, items[1..]);
      if |contents| == capacity {
        assert next + items[1..] == (contents + items)[1..];
      } else {
        assert next + items[1..] == contents + items;
      }
    }
  }

  // ---- buffered_stream ----

  /** The stream as a value: its contents, and whether it has passed its threshold since it was
      last drained. */
  datatype Stream<T> = Stream(contents: seq<T>, reached: bool)

  datatype StreamOp<T> = Put(item: T) | Get

  predicate CanRead<T>(s: Stream<T>) {
    s.reached && s.contents != []
  }

  function StreamPut<T>(s: Stream<T>, capacity: nat, threshold: nat, item: T): Stream<T>
    requires |s.contents| <= capacity
  {
    var contents := Pushed(s.contents, capacity, item);
    Stream(contents, s.reached || |contents| > threshold)
  }

  function StreamGet<T>(s: Stream<T>): Stream<T> {
    var contents := if s.contents == [] then [] else s.contents[1..];
    Stream(contents, s.reached && contents != [])
  }

  class BufferedStream<T(0)> {
    const stream: CircularBuffer<T>
    const threshold: nat
    var reached: bool

    ghost predicate Valid()
      reads this, stream, stream.buf
    {
      stream.Valid()
    }

    ghost function State(): Stream<T>
      reads this, stream
    {
      Stream(stream.contents, reached)
    }

    constructor (capacity: nat, threshold: nat, zero: T)
      requires 0 < capacity
      ensures Valid() && fresh(stream) && fresh(stream.buf)
      ensures stream.maxSize == capacity && this.threshold == threshold
      ensures State() == Stream([], false)
    {
      stream := new CircularBuffer<T>(capacity, zero);
      this.threshold := threshold;
      reached := false;
    }

    method Put(item: T)
      requires Valid()
      modifies this, stream, stream.buf
      ensures Valid() && stream.buf == old(stream.buf)
      ensures State() == StreamPut(old(State()), stream.maxSize, threshold, item)
    {
      stream.Put(item);
      var size := stream.Size();
      if !reached && size > threshold {
        reached := true;
      }
    }

    method Get() returns (item: T)
      requires Valid()
      modifies this, stream
      ensures Valid() && stream.buf == old(stream.buf)
      ensures old(State()).contents != [] ==> item == old(State()).contents[0]
      ensures old(State()).contents == [] ==> item == stream.zero
      ensures State() == StreamGet(old(State()))
    {
      item := stream.Get();
      var empty := stream.Empty();
      if empty {
        reached := false;
      }
    }

    method CanReadNow() returns (b: bool)
      requires Valid()
      ensures b <==> CanRead(State())
    {
      var empty := stream.Empty();
      b := reached && !empty;
    }
  }

  /** A stream after the first n of a run of operations, from empty. */
  function After<T>(capacity: nat, threshold: nat, ops: seq<StreamOp<T>>, n: nat): (s: Stream<T>)
    requires 0 < capacity && n <= |ops|
    ensures |s.contents| <= capacity
  {
    if n == 0 then Stream([], false)
    else
      var before := After(capacity, threshold, ops, n - 1);
      match ops[n - 1]
      case Put(item) => StreamPut(before, capacity, threshold, item)
      case Get => StreamGet(before)
  }

  /** After k operations the stream held more than its threshold, and it has not been empty since. */
  ghost predicate PassedAt<T>(capacity: nat, threshold: nat, ops: seq<StreamOp<T>>, n: nat, k: nat)
    requires 0 < capacity && k <= n <= |ops|
  {
    && |After(capacity, threshold, ops, k).contents| > threshold
    && forall j :: k <= j <= n ==> After(capacity, threshold, ops, j).contents != []
  }

  /** Readable means exactly: more than the threshold was buffered since the stream was last empty. */
  lemma {:induction false} ReadableExactly<T>(capacity: nat, threshold: nat, ops: seq<StreamOp<T>>, n: nat)
    requires 0 < capacity && n <= |ops|
    ensures CanRead(After(capacity, threshold, ops, n))
       <==> exists k :: 0 <= k <= n && PassedAt(capacity, threshold, ops, n, k)
    ensures After(capacity, threshold, ops, n).reached ==> After(capacity, threshold, ops, n).contents != []
  {
    if n > 0 {
      ReadableExactly(capacity, threshold, ops, n - 1);
      var now := After(capacity, threshold, ops, n);
      if CanRead(now) {
        if CanRead(After(capacity, threshold, ops, n - 1)) {
          var k :| 0 <= k <= n - 1 && PassedAt(capacity, threshold, ops, n - 1, k);
          assert PassedAt(capacity, threshold, ops, n, k);
        } else {
          assert PassedAt(capacity, threshold, ops, n, n);
        }
      }
      forall k | 0 <= k <= n && PassedAt(capacity, threshold, ops, n, k)
        ensures CanRead(now)
      {
        if k < n {
          assert PassedAt(capacity, threshold, ops, n - 1, k);
        } else if ops[n - 1].Get? {
          assert PassedAt(capacity, threshold, ops, n - 1, n - 1);
        }
      }
    }
  }
}
