/** The byte ring buffer: a wrap-around array that is a bounded FIFO of size - 1 bytes. */
module RingBuffer {
  import opened Bytes

  // ----- Cursor arithmetic -----

  predicate Cursors(front: int, rear: int, size: int) {
    0 <= front < size && 0 <= rear < size
  }

  function UsedSize(front: int, rear: int, size: int): int {
    if front <= rear then rear - front else size - (front - rear)
  }

  function FreeSize(front: int, rear: int, size: int): int {
    size - UsedSize(front, rear, size) - 1
  }

  /** The k-th byte after a cursor. */
  function Pos(cursor: int, k: int, size: int): int {
    if cursor + k < size then cursor + k else cursor + k - size
  }

  lemma PosIsMod(cursor: int, k: int, size: int)
    requires 0 <= cursor < size && 0 <= k <= size
    ensures (cursor + k) % size == Pos(cursor, k, size)
    ensures 0 <= Pos(cursor, k, size) < size
  {
    if cursor + k < size {
    } else {
      assert cursor + k == size + (cursor + k - size);
    }
  }

  /** The bytes from front up to rear, across the wrap. */
  function View(buf: seq<Byte>, front: int, rear: int): seq<Byte>
    requires Cursors(front, rear, |buf|)
  {
    if front <= rear then buf[front..rear] else buf[front..] + buf[..rear]
  }

  lemma ViewAt(buf: seq<Byte>, front: int, rear: int)
    requires Cursors(front, rear, |buf|)
    ensures |View(buf, front, rear)| == UsedSize(front, rear, |buf|)
    ensures forall k :: 0 <= k < UsedSize(front, rear, |buf|) ==> View(buf, front, rear)[k] == buf[Pos(front, k, |buf|)]
  {
  }

  /** Writing the bytes after rear and moving rear past them appends them. */
  lemma ViewAppend(buf: seq<Byte>, buf': seq<Byte>, front: int, rear: int, data: seq<Byte>)
    requires |buf'| == |buf| && Cursors(front, rear, |buf|)
    requires |data| <= FreeSize(front, rear, |buf|)
    requires forall k :: 0 <= k < |data| ==> buf'[Pos(rear, k, |buf|)] == data[k]
    requires forall i :: 0 <= i < |buf| && (forall k :: 0 <= k < |data| ==> i != Pos(rear, k, |buf|)) ==> buf'[i] == buf[i]
    ensures Cursors(front, Pos(rear, |data|, |buf|), |buf|)
    ensures View(buf', front, Pos(rear, |data|, |buf|)) == View(buf, front, rear) + data
  {
  }

  /** Moving front past k bytes drops them. */
  lemma ViewDrop(buf: seq<Byte>, front: int, rear: int, k: int)
    requires Cursors(front, rear, |buf|) && 0 <= k <= UsedSize(front, rear, |buf|)
    ensures Cursors(Pos(front, k, |buf|), rear, |buf|)
    ensures |View(buf, front, rear)| == UsedSize(front, rear, |buf|)
    ensures View(buf, Pos(front, k, |buf|), rear) == View(buf, front, rear)[k..]
  {
  }

  function Min(a: int, b: int): int {
    if a <= b then a else b
  }

  class RingBuffer {
    var buffer: array<Byte>
    var front: int
    var rear: int
    var size: int

    ghost predicate Valid()
      reads this
    {
      buffer.Length == size && Cursors(front, rear, size)
    }

    ghost function Contents(): (s: seq<Byte>)
      reads this, buffer
      requires Valid()
    {
      View(buffer[..], front, rear)
    }

    constructor (buffersize: nat)
      requires buffersize >= 1
      ensures Valid() && fresh(buffer) && Contents() == [] && size == buffersize
    {
      buffer := new Byte[buffersize];
      front, rear, size := 0, 0, buffersize;
    }

    function GetBufferSize(): int
      reads this
    {
      size - 1
    }

    function GetUsedSize(): (n: int)
      reads this, buffer
      requires Valid()
      ensures n == |Contents()| && 0 <= n <= GetBufferSize()
    {
      ViewAt(buffer[..], front, rear);
      UsedSize(front, rear, size)
    }

    function GetFreeSize(): (n: int)
      reads this, buffer
      requires Valid()
      ensures n == GetBufferSize() - |Contents()| && n >= 0
    {
      size - GetUsedSize() - 1
    }

    /** The two memcpy calls of Enqueue: n bytes after rear, across the wrap. */
    method StoreAtRear(data: array<Byte>, n: nat)
      requires Valid() && n <= data.Length && data != buffer && n <= GetFreeSize()
      modifies buffer
      ensures forall k :: 0 <= k < n ==> buffer[Pos(rear, k, size)] == data[k]
      ensures forall i :: 0 <= i < size && (forall k :: 0 <= k < n ==> i != Pos(rear, k, size)) ==> buffer[i] == old(buffer[i])
    {
      if rear < front {
        Copy(buffer, rear, data, 0, n);
      } else if size - rear >= n {
        Copy(buffer, rear, data, 0, n);
      } else {
        var movebyte := size - rear;
        Copy(buffer, rear, data, 0, movebyte);
        Copy(buffer, 0, data, movebyte, n - movebyte);
      }
    }

    /** The memcpy calls of Dequeue and Peek when enough bytes are there. */
    method LoadFromFront(dest: array<Byte>, n: nat)
      requires Valid() && n <= dest.Length && dest != buffer && n <= GetUsedSize()
      modifies dest
      ensures dest[..n] == Contents()[..n] && dest[n..] == old(dest[n..])
    {
      ViewAt(buffer[..], front, rear);
      if front < rear {
        Copy(dest, 0, buffer, front, n);
      } else if size - front >= n {
        Copy(dest, 0, buffer, front, n);
      } else {
        var movebyte := size - front;
        Copy(dest, 0, buffer, front, movebyte);
        Copy(dest, movebyte, buffer, 0, n - movebyte);
      }
      assert forall k :: 0 <= k < n ==> dest[k] == buffer[Pos(front, k, size)];
    }

    /** The memcpy calls of Dequeue and Peek when fewer bytes are there than asked for. */
    method LoadAll(dest: array<Byte>, usedsize: nat)
      requires Valid() && usedsize == GetUsedSize() > 0 && usedsize <= dest.Length && dest != buffer
      modifies dest
      ensures dest[..usedsize] == Contents() && dest[usedsize..] == old(dest[usedsize..])
    {
      if front < rear {
        Copy(dest, 0, buffer, front, usedsize);
      } else {
        var movebyte := size - front;
        Copy(dest, 0, buffer, front, movebyte);
        Copy(dest, movebyte, buffer, 0, usedsize - movebyte);
      }
      ViewAt(buffer[..], front, rear);
    }

    /** `(cursor + n) % _size`. */
    method Advanced(cursor: int, n: int) returns (c: int)
      requires 0 <= cursor < size && 0 <= n <= size
      ensures c == Pos(cursor, n, size)
    {
      PosIsMod(cursor, n, size);
      c := (cursor + n) % size;
    }

    /** All or nothing: the bytes are appended if they fit, otherwise nothing changes. */
    method Enqueue(data: array<Byte>, n: nat) returns (r: int)
      requires Valid() && n <= data.Length && data != buffer
      modifies this`rear, buffer
      ensures Valid()
      ensures r == if n <= old(GetFreeSize()) then n else 0
      ensures Contents() == old(Contents()) + data[..r]
      ensures r == 0 ==> buffer[..] == old(buffer[..]) && rear == old(rear)
    {
      var freesize := GetFreeSize();
      if freesize >= n {
        StoreAtRear(data, n);
        ViewAppend(old(buffer[..]), buffer[..], front, rear, data[..n]);
        rear := Advanced(rear, n);
        r := n;
        if n == 0 {
          assert buffer[..] == old(buffer[..]);
        }
      } else {
        r := 0;
      }
    }

    /** Takes the oldest bytes, at most n: a short buffer gives exactly what it holds. */
    method Dequeue(dest: array<Byte>, n: nat) returns (r: int)
      requires Valid() && n <= dest.Length && dest != buffer
      modifies this`front, dest
      ensures Valid()
      ensures r == Min(n, |old(Contents())|)
      ensures dest[..r] == old(Contents())[..r] && dest[r..] == old(dest[r..])
      ensures Contents() == old(Contents())[r..]
    {
      if GetUsedSize() >= n {
        LoadFromFront(dest, n);
        ViewDrop(buffer[..], front, rear, n);
        front := Advanced(front, n);
        r := n;
      } else {
        var usedsize := GetUsedSize();
        if usedsize == 0 {
          return 0;
        }
        LoadAll(dest, usedsize);
        ViewDrop(buffer[..], front, rear, usedsize);
        front := Advanced(front, usedsize);
        r := usedsize;
      }
    }

    /** What Dequeue would return, with the buffer left alone. */
    method Peek(dest: array<Byte>, n: nat) returns (r: int)
      requires Valid() && n <= dest.Length && dest != buffer
      modifies dest
      ensures r == Min(n, |Contents()|)
      ensures dest[..r] == Contents()[..r] && dest[r..] == old(dest[r..])
    {
      if GetUsedSize() >= n {
        LoadFromFront(dest, n);
        r := n;
      } else {
        var usedsize := GetUsedSize();
        if usedsize == 0 {
          return 0;
        }
        LoadAll(dest, usedsize);
        r := usedsize;
      }
    }

    method ClearBuffer()
      requires Valid()
      modifies this`front, this`rear
      ensures Valid() && Contents() == []
    {
      front, rear := 0, 0;
    }

    // ----- Zero-copy interface -----

    /** The longest stretch of free bytes that starts at rear without wrapping. */
    function DirectEnqueueSize(): (n: int)
      reads this, buffer
      requires Valid()
      ensures 0 <= n <= GetFreeSize() && rear + n <= size
      ensures n == GetFreeSize() || rear + n == size
    {
      if rear < front then front - rear - 1
      else if front == 0 then size - rear - 1
      else size - rear
    }

    /** On a non-empty buffer, the longest stretch of live bytes that starts at front without
        wrapping. On an empty one it exceeds the number of live bytes. */
    function DirectDequeueSize(): (n: int)
      reads this, buffer
      requires Valid()
      ensures n <= |Contents()| <==> Contents() != []
      ensures Contents() != [] ==>
        && 0 < n && front + n <= size && (n == |Contents()| || front + n == size)
        && Contents()[..n] == buffer[front..front + n]
    {
      ViewAt(buffer[..], front, rear);
      if front < rear then rear - front else size - front
    }

    /** MoveRear publishes n bytes already written after rear. For n beyond the free space the
        code clamps, and does so correctly exactly when front is not 0 (otherwise rear becomes
        -1) and, for the reported count, when the buffer is not empty (otherwise -1). */
    method MoveRear(n: nat) returns (r: int)
      requires Valid()
      modifies this`rear
      ensures n <= old(GetFreeSize()) ==> Valid() && r == n && rear == Pos(old(rear), n, size)
      ensures n > old(GetFreeSize()) ==>
        && (Valid() <==> front > 0)
        && (Valid() ==> |Contents()| == GetBufferSize())
        && (r == old(GetFreeSize()) <==> old(Contents()) != [])
    {
      if GetFreeSize() >= n {
        rear := Advanced(rear, n);
        r := n;
      } else if rear <= front {
        r := front - rear - 1;
        rear := front - 1;
      } else {
        r := (size - rear) + front - 1;
        rear := front - 1;
      }
    }

    /** MoveFront drops the oldest bytes, at most n. */
    method MoveFront(n: nat) returns (r: int)
      requires Valid()
      modifies this`front
      ensures Valid() && r == Min(n, |old(Contents())|)
      ensures Contents() == old(Contents())[r..]
    {
      if GetUsedSize() >= n {
        ViewDrop(buffer[..], front, rear, n);
        front := Advanced(front, n);
        r := n;
      } else {
        ViewDrop(buffer[..], front, rear, GetUsedSize());
        if front <= rear {
          r := rear - front;
          front := rear;
        } else {
          r := (size - front) + rear;
          front := rear;
        }
      }
    }

    /** A receive of n bytes through two segments, as the session's WSARecv does: the direct
        segment at rear first, the rest from index 0, then MoveRear. It is the same as Enqueue. */
    method ReceiveDirect(data: array<Byte>, n: nat) returns (r: int)
      requires Valid() && n <= data.Length && data != buffer && n <= GetFreeSize()
      modifies this`rear, buffer
      ensures Valid() && r == n
      ensures Contents() == old(Contents()) + data[..n]
    {
      var first := Min(n, DirectEnqueueSize());
      Copy(buffer, rear, data, 0, first);
      Copy(buffer, 0, data, first, n - first);
      ViewAppend(old(buffer[..]), buffer[..], front, rear, data[..n]);
      r := MoveRear(n);
    }

    /** A send through the direct segment, as the client's WSASend does: the bytes handed out
        are the oldest ones, and MoveFront then drops exactly those that were sent. */
    method SendDirect(sent: nat) returns (segment: seq<Byte>, r: int)
      requires Valid() && Contents() != [] && sent <= DirectDequeueSize()
      modifies this`front
      ensures Valid() && r == sent
      ensures |segment| == old(DirectDequeueSize()) && segment[..sent] + Contents() == old(Contents())
    {
      segment := buffer[front..front + DirectDequeueSize()];
      ghost var all := Contents();
      r := MoveFront(sent);
      assert segment[..sent] == all[..sent];
    }
  }
}
