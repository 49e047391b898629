/** A packet buffer: what is put at the end is got from the front, and never past the end. */
module Packet {

  import opened Common
  import opened Encryption

  const BUFFER_DEFAULT: nat := 512
  const HEADER: nat := 5

  class Packet {
    const storage: array<byte>
    var dataSize: int
    var readPos: int
    var isEncoding: bool

    ghost predicate Valid()
      reads this
    {
      storage.Length == BUFFER_DEFAULT && 0 <= dataSize <= BUFFER_DEFAULT && 0 <= readPos <= BUFFER_DEFAULT
    }

    ghost function Written(): seq<byte>
      requires Valid()
      reads this, storage
    {
      storage[..dataSize]
    }

    ghost function Unread(): seq<byte>
      requires Valid()
      reads this, storage
    {
      if readPos <= dataSize then storage[readPos..dataSize] else []
    }

    /** A packet from the pool after Init; what the storage held before stays in it. */
    constructor ()
      ensures Valid() && dataSize == readPos == 0 && !isEncoding && fresh(storage)
    {
      storage := new byte[BUFFER_DEFAULT];
      dataSize, readPos, isEncoding := 0, 0, false;
    }

    /** What is written is cut or extended to `size` bytes; a size outside the buffer is ignored. */
    method SetDataSize(size: int)
      requires Valid()
      modifies this`dataSize
      ensures Valid()
      ensures |Written()| == if 0 <= size <= BUFFER_DEFAULT then size else |old(Written())|
      ensures old(Written()) <= Written() || Written() <= old(Written())
    {
      if size < 0 || size > BUFFER_DEFAULT { return; }
      dataSize := size;
    }

    /** `size` bytes are skipped, or read again when it is negative; a move out of what is written is ignored. */
    method MoveReadPos(size: int)
      requires Valid()
      modifies this`readPos
      ensures Valid() && Written() == old(Written())
      ensures var at := old(readPos) + size;
              if 0 <= at <= |Written()| then readPos == at && Unread() == Written()[at..]
              else readPos == old(readPos) && Unread() == old(Unread())
      ensures 0 <= size <= |old(Unread())| && old(Unread()) != [] ==> Unread() == old(Unread())[size..]
    {
      if readPos + size < 0 || readPos + size > dataSize { return; }
      readPos := readPos + size;
    }

    /** `<<`: the bytes of one value, or nothing when they do not fit. */
    method PutValue(value: seq<byte>)
      requires Valid()
      modifies this`dataSize, storage
      ensures Valid()
      ensures Written() == if old(dataSize) + |value| <= BUFFER_DEFAULT then old(Written()) + value else old(Written())
      ensures old(readPos) <= old(dataSize) ==>
                Unread() == if old(dataSize) + |value| <= BUFFER_DEFAULT then old(Unread()) + value else old(Unread())
    {
      if dataSize + |value| > BUFFER_DEFAULT { return; }
      forall j | 0 <= j < |value| { storage[dataSize + j] := value[j]; }
      dataSize := dataSize + |value|;
    }

    /** `>>`: the next `n` bytes, or nothing when there are fewer. */
    method GetValue(n: nat) returns (got: bool, value: seq<byte>)
      requires Valid()
      modifies this`readPos
      ensures Valid() && Written() == old(Written()) && got == (readPos <= dataSize && n <= old(dataSize - readPos))
      ensures if got then old(Unread()) == value + Unread() && |value| == n else readPos == old(readPos) && value == []
    {
      if readPos + n > dataSize { return false, []; }
      value := storage[readPos..readPos + n];
      readPos := readPos + n;
      got := true;
    }

    /** As much of `source` as fits. */
    method PutData(source: seq<byte>) returns (put: nat)
      requires Valid()
      modifies this`dataSize, storage
      ensures Valid() && put == Min(|source|, BUFFER_DEFAULT - old(dataSize))
      ensures Written() == old(Written()) + source[..put]
    {
      put := |source|;
      if dataSize + |source| > BUFFER_DEFAULT {
        put := BUFFER_DEFAULT - dataSize;
        if put <= 0 { return 0; }
      }
      forall j | 0 <= j < put { storage[dataSize + j] := source[j]; }
      dataSize := dataSize + put;
    }

    /** As much of the unread bytes as `size` asks for. */
    method GetData(size: nat) returns (bytes: seq<byte>)
      requires Valid()
      modifies this`readPos
      ensures Valid() && Written() == old(Written())
      ensures |bytes| == Min(size, |old(Unread())|) && old(Unread()) == bytes + Unread()
    {
      var copySize := size;
      if readPos + size > dataSize {
        copySize := if dataSize < readPos then 0 else dataSize - readPos;
        if copySize <= 0 { return []; }
      }
      bytes := storage[readPos..readPos + copySize];
      readPos := readPos + copySize;
    }
  }
}
