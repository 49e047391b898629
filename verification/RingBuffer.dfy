/** The circular buffer of a session, which keeps one cell free to tell full from empty. */
module RingBuffer {

  import opened Common

  /** Where index `k` is after going round a buffer of `size` cells at most once. */
  function Wrap(k: nat, size: nat): nat { if k < size then k else k - size }

  lemma WrapIsModulo(k: nat, size: nat)
    requires 0 < size && k < 2 * size
    ensures Wrap(k, size) == k % size < size
  {
    if k >= size { assert k == size * 1 + (k - size); }
  }

  /** `k % size` for an index that has gone round at most once. */
  method Modulo(k: nat, size: nat) returns (r: nat)
    requires 0 < size && k < 2 * size
    ensures r == Wrap(k, size) < size
  {
    WrapIsModulo(k, size);
    r := k % size;
  }

  // A contiguous part of the buffer, as a WSABUF names it.
  datatype Segment = Segment(start: nat, len: nat)

  /** The index of the `j`-th cell of two parts taken one after the other. */
  function Nth(first: Segment, second: Segment, j: nat): int {
    if j < first.len then first.start + j else second.start + (j - first.len)
  }

  lemma WrapFurther(front: nat, used: nat, k: nat, size: nat)
    requires front < size && used <= k < size
    ensures Wrap(front + k, size) == Wrap(Wrap(front + used, size) + (k - used), size)
  {
  }

  class RingBuffer<T(0)> {
    ghost var Contents: seq<T>
    var front: nat
    var rear: nat
    const data: array<T>      // _bufferSize is data.Length

    ghost predicate Valid()
      reads this, data
    {
      && front < data.Length && rear < data.Length && |Contents| < data.Length
      && rear == Wrap(front + |Contents|, data.Length)
      && forall j :: 0 <= j < |Contents| ==> Contents[j] == data[Wrap(front + j, data.Length)]
    }

    /** How many cells are free. */
    ghost function Room(): int
      reads this, data
    {
      data.Length - 1 - |Contents|
    }

    constructor (capacity: nat)
      ensures Valid() && Contents == [] && data.Length == capacity + 1 && fresh(data)
    {
      data := new T[capacity + 1];
      front, rear := 0, 0;
      Contents := [];
    }

    method GetUseSize() returns (n: nat)
      requires Valid()
      ensures n == |Contents|
    {
      n := Modulo(rear - front + data.Length, data.Length);
    }

    method GetFreeSize() returns (n: nat)
      requires Valid()
      ensures n == Room()
    {
      var used := GetUseSize();
      n := data.Length - 1 - used;
    }

    method EnqueueItem(item: T) returns (done: int)
      requires Valid()
      modifies this`rear, this`Contents, data
      ensures Valid() && done == (if old(Room()) > 0 then 1 else 0)
      ensures Contents == if done == 1 then old(Contents) + [item] else old(Contents)
    {
      var free := GetFreeSize();
      if free < 1 { return 0; }
      data[rear] := item;
      rear := Modulo(rear + 1, data.Length);
      Contents := Contents + [item];
      done := 1;
    }

    method DequeueItem() returns (done: bool, item: T)
      requires Valid()
      modifies this`front, this`Contents
      ensures Valid() && done == (old(Contents) != [])
      ensures if done then old(Contents) == [item] + Contents else Contents == old(Contents)
    {
      var used := GetUseSize();
      if used <= 0 { item := *; return false, item; }
      item := data[front];
      front := Modulo(front + 1, data.Length);
      Contents := Contents[1..];
      done := true;
    }

    /** The first `n` free cells become the end of the contents, as they are. */
    method MoveRear(size: nat) returns (moved: nat)
      requires Valid()
      modifies this`rear, this`Contents
      ensures Valid() && moved == (if size > old(Room()) then 0 else size)
      ensures |Contents| == |old(Contents)| + moved && Contents[..|old(Contents)|] == old(Contents)
      ensures forall k :: |old(Contents)| <= k < |Contents| ==>
                Contents[k] == data[Wrap(old(rear) + (k - |old(Contents)|), data.Length)]
    {
      var free := GetFreeSize();
      if size > free { return 0; }
      ghost var used, start := |Contents|, rear;
      rear := Modulo(rear + size, data.Length);
      Contents := Contents + seq(size, j requires 0 <= j < size reads data => data[Wrap(start + j, data.Length)]);
      forall k | used <= k < |Contents| ensures Contents[k] == data[Wrap(front + k, data.Length)] {
        WrapFurther(front, used, k, data.Length);
      }
      moved := size;
    }

    method MoveFront(size: nat) returns (moved: nat)
      requires Valid()
      modifies this`front, this`Contents
      ensures Valid() && moved == (if size > old(|Contents|) then 0 else size)
      ensures Contents == old(Contents)[moved..]
    {
      var used := GetUseSize();
      if size > used { return 0; }
      front := Modulo(front + size, data.Length);
      Contents := Contents[size..];
      moved := size;
    }

    method ClearBuffer()
      requires Valid()
      modifies this
      ensures Valid() && Contents == []
    {
      front, rear := 0, 0;
      Contents := [];
    }

    /** A memcpy behind `rear`, and the move of `rear` past it. */
    method CopyIn(source: seq<T>)
      requires Valid() && |source| <= Room() && rear + |source| <= data.Length
      modifies this`rear, this`Contents, data
      ensures Valid() && rear == Wrap(old(rear) + |source|, data.Length)
      ensures Contents == old(Contents) + source
    {
      forall j | 0 <= j < |source| { data[rear + j] := source[j]; }
      rear := Modulo(rear + |source|, data.Length);
      Contents := Contents + source;
    }

    method Enqueue(source: seq<T>, size: int) returns (written: nat)
      requires Valid() && size <= |source|
      modifies this`rear, this`Contents, data
      ensures Valid() && written == (if size <= 0 then 0 else Min(size, old(Room())))
      ensures Contents == old(Contents) + source[..written]
    {
      if size <= 0 { return 0; }
      var free := GetFreeSize();
      var writeSize := Min(size, free);
      var firstChunk := Min(writeSize, data.Length - rear);
      CopyIn(source[..firstChunk]);
      var remaining := writeSize - firstChunk;
      if remaining > 0 {
        CopyIn(source[firstChunk..writeSize]);
      }
      written := writeSize;
      assert source[..firstChunk] + source[firstChunk..writeSize] == source[..writeSize];
    }

    /** The cells of `target` from `at` on hold `bytes`, and the others what they held before. */
    twostate predicate Got(target: array<T>, at: nat, bytes: seq<T>)
      reads target
    {
      && at + |bytes| <= target.Length && (forall i :: at <= i < at + |bytes| ==> target[i] == bytes[i - at])
      && forall i :: 0 <= i < target.Length && !(at <= i < at + |bytes|) ==> target[i] == old(target[i])
    }

    /** A memcpy of the contents from the `done`-th on, which lie in one piece. */
    method CopyOut(done: nat, n: nat, target: array<T>, at: nat)
      requires Valid() && done + n <= |Contents| && target != data && at + n <= target.Length
      requires n > 0 ==> Wrap(front + done, data.Length) + n <= data.Length
      modifies target
      ensures Valid() && Got(target, at, Contents[done..done + n])
    {
      var start := Modulo(front + done, data.Length);
      forall j | 0 <= j < n { target[at + j] := data[start + j]; }
    }

    method Peek(target: array<T>, at: nat, size: int) returns (peeked: nat)
      requires Valid() && target != data && at <= target.Length && (size > 0 ==> at + size <= target.Length)
      modifies target
      ensures Valid() && peeked == (if size <= 0 then 0 else Min(size, |Contents|))
      ensures Got(target, at, Contents[..peeked])
    {
      if size <= 0 { return 0; }
      var used := GetUseSize();
      var peekSize := Min(size, used);
      var firstChunk := Min(data.Length - front, peekSize);
      CopyOut(0, firstChunk, target, at);
      var remaining := peekSize - firstChunk;
      if remaining > 0 {
        CopyOut(firstChunk, remaining, target, at + firstChunk);
      }
      peeked := peekSize;
    }

    /** A memcpy of the first `n` items, which lie in one piece, and the move of `front` past them. */
    method TakeOut(n: nat, target: array<T>, at: nat)
      requires Valid() && n <= |Contents| && front + n <= data.Length && target != data && at + n <= target.Length
      modifies this`front, this`Contents, target
      ensures Valid() && front == Wrap(old(front) + n, data.Length)
      ensures Contents == old(Contents)[n..] && Got(target, at, old(Contents)[..n])
    {
      CopyOut(0, n, target, at);
      front := Modulo(front + n, data.Length);
      Contents := Contents[n..];
    }

    method Dequeue(target: array<T>, at: nat, size: int) returns (taken: nat)
      requires Valid() && target != data && at <= target.Length && (size > 0 ==> at + size <= target.Length)
      modifies this`front, this`Contents, target
      ensures Valid() && taken == (if size <= 0 then 0 else Min(size, old(|Contents|)))
      ensures Contents == old(Contents)[taken..] && Got(target, at, old(Contents)[..taken])
    {
      if size <= 0 { return 0; }
      var used := GetUseSize();
      var readSize := Min(size, used);
      var firstChunk := Min(data.Length - front, readSize);
      TakeOut(firstChunk, target, at);
      var remaining := readSize - firstChunk;
      if remaining > 0 {
        TakeOut(remaining, target, at + firstChunk);
      }
      taken := readSize;
    }

    // ---------------------------------------------------------------- contiguous parts

    // Where `rear >= front`, the C++ code also tests for `_front > _rear`; that branch is dead.
    method DirectEnqueueSize() returns (n: nat)
      requires Valid()
      ensures n <= Room() && rear + n <= data.Length && (Room() > 0 ==> n > 0)
      ensures Room() > n ==> rear + n == data.Length && Room() - n < front <= rear
    {
      var free := GetFreeSize();
      if free == 0 { return 0; }
      if rear >= front {
        var spaceToEnd := data.Length - rear;
        n := if front == 0 then spaceToEnd - 1 else spaceToEnd;
      } else {
        n := front - rear - 1;
      }
    }

    method DirectDequeueSize() returns (n: nat)
      requires Valid()
      ensures n <= |Contents| && front + n <= data.Length && (Contents != [] ==> n > 0)
      ensures |Contents| > n ==> front + n == data.Length && |Contents| - n == rear
    {
      var used := GetUseSize();
      if used == 0 { return 0; }
      n := if front < rear then rear - front else data.Length - front;
    }

    /** The parts of the buffer that a receive may fill: in bounds, disjoint from each other and from the
      * contents, and covering exactly the free cells, in the order in which `rear` will pass them.
      */
    method GetEnqueueSegments() returns (count: nat, first: Segment, second: Segment)
      requires Valid()
      ensures count == (if Room() == 0 then 0 else if first.len == Room() then 1 else 2)
      ensures first.start + first.len <= data.Length && second.start + second.len <= data.Length
      ensures first.len + second.len == Room() && (count > 0 ==> first.start == rear)
      ensures forall j :: 0 <= j < Room() ==> Nth(first, second, j) == Wrap(rear + j, data.Length)
    {
      var freeSize := GetFreeSize();
      if freeSize <= 0 { return 0, Segment(0, 0), Segment(0, 0); }
      var length := DirectEnqueueSize();
      if length > freeSize { length := freeSize; }
      first := Segment(rear, length);
      second := Segment(0, freeSize - length);
      count := if freeSize - length > 0 then 2 else 1;
    }

    /** The parts of the buffer that hold the contents, in order. */
    method GetDequeueSegments() returns (count: nat, first: Segment, second: Segment)
      requires Valid()
      ensures count == (if Contents == [] then 0 else if first.len == |Contents| then 1 else 2)
      ensures first.start + first.len <= data.Length && second.start + second.len <= data.Length
      ensures Contents == data[first.start..first.start + first.len] + data[second.start..second.start + second.len]
    {
      var useSize := GetUseSize();
      if useSize <= 0 { return 0, Segment(0, 0), Segment(0, 0); }
      var length := DirectDequeueSize();
      if length > useSize { length := useSize; }
      first := Segment(front, length);
      second := Segment(0, useSize - length);
      count := if useSize - length > 0 then 2 else 1;
    }

    /** A completed receive: the system fills the segments with `bytes`, and MoveRear makes them contents. */
    method Receive(bytes: seq<T>)
      requires Valid() && |bytes| <= Room()
      modifies this`rear, this`Contents, data
      ensures Valid() && Contents == old(Contents) + bytes
    {
      var count, first, second := GetEnqueueSegments();
      Fill(first, second, bytes);
      var moved := MoveRear(|bytes|);
      forall j | 0 <= j < |bytes| ensures Contents[|old(Contents)| + j] == bytes[j] {
        assert Contents[|old(Contents)| + j] == data[Nth(first, second, j)];
      }
      assert Contents == Contents[..|old(Contents)|] + Contents[|old(Contents)|..];
    }

    /** What the system does with the segments: the bytes go to the first and then to the second. */
    method Fill(first: Segment, second: Segment, bytes: seq<T>)
      requires Valid() && |bytes| <= Room() == first.len + second.len
      requires first.start + first.len <= data.Length && second.start + second.len <= data.Length
      requires forall j :: 0 <= j < Room() ==> Nth(first, second, j) == Wrap(rear + j, data.Length)
      modifies data
      ensures Valid() && forall j :: 0 <= j < |bytes| ==> data[Nth(first, second, j)] == bytes[j]
    {
      var j := 0;
      while j < |bytes|
        invariant 0 <= j <= |bytes| && Valid()
        invariant forall i :: 0 <= i < j ==> data[Nth(first, second, i)] == bytes[i]
      {
        assert Nth(first, second, j) == Wrap(rear + j, data.Length);
        forall i | 0 <= i < j ensures Nth(first, second, i) != Nth(first, second, j) {
          assert Nth(first, second, i) == Wrap(rear + i, data.Length);
        }
        data[if j < first.len then first.start + j else second.start + (j - first.len)] := bytes[j];
        j := j + 1;
      }
    }
  }
}
