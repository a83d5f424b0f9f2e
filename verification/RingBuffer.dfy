/** The receive buffer of a session: a circular byte array that behaves as a queue. One cell is
    always left empty, so that a full buffer can be told from an empty one. */
module RingBuffers {
  type byte = b: int | 0 <= b < 256

  const BUFFER_SIZE: int := 8192

  /** The cells from `tail` round to just before `head`. */
  function Circular(cells: seq<byte>, tail: int, head: int): (q: seq<byte>)
    requires |cells| == BUFFER_SIZE && 0 <= tail < BUFFER_SIZE && 0 <= head < BUFFER_SIZE
    ensures |q| == if tail <= head then head - tail else BUFFER_SIZE - tail + head
  {
    if tail <= head then cells[tail..head] else cells[tail..] + cells[..head]
  }

  /** The cell that holds the `k`-th queued byte. */
  function Cell(tail: int, k: int): int {
    (tail + k) % BUFFER_SIZE
  }

  lemma CellAt(cells: seq<byte>, tail: int, head: int, k: int)
    requires |cells| == BUFFER_SIZE && 0 <= tail < BUFFER_SIZE && 0 <= head < BUFFER_SIZE
    requires 0 <= k < |Circular(cells, tail, head)|
    ensures 0 <= Cell(tail, k) < BUFFER_SIZE && Circular(cells, tail, head)[k] == cells[Cell(tail, k)]
  {
  }

  /** Cell `i` holds one of the `used` queued bytes. */
  ghost predicate Queued(tail: int, used: int, i: int) {
    exists k :: 0 <= k < used && Cell(tail, k) == i
  }

  lemma CircularAt(cells: seq<byte>, tail: int, head: int, i: int)
    requires |cells| == BUFFER_SIZE && 0 <= tail < BUFFER_SIZE && 0 <= head < BUFFER_SIZE
    requires 0 <= i < |Circular(cells, tail, head)|
    ensures Circular(cells, tail, head)[i] ==
      if i < BUFFER_SIZE - tail then cells[tail + i] else cells[i - (BUFFER_SIZE - tail)]
  {
  }

  lemma AdvanceToEnd(cells: seq<byte>, tail: int, head: int)
    requires |cells| == BUFFER_SIZE && 0 < tail <= head < BUFFER_SIZE
    ensures Circular(cells, tail, 0) == Circular(cells, tail, head) + cells[head..]
  {
    assert cells[tail..] == cells[tail..head] + cells[head..];
    assert cells[tail..] + cells[..0] == cells[tail..];
  }

  lemma AdvanceBeforeWrap(cells: seq<byte>, tail: int, head: int, len: int)
    requires |cells| == BUFFER_SIZE && 0 <= tail <= head && 0 <= len && head + len < BUFFER_SIZE
    ensures Circular(cells, tail, head + len) == Circular(cells, tail, head) + cells[head..head + len]
  {
    assert cells[tail..head + len] == cells[tail..head] + cells[head..head + len];
  }

  lemma AdvanceAfterWrap(cells: seq<byte>, tail: int, head: int, len: int)
    requires |cells| == BUFFER_SIZE && 0 <= head && 0 <= len && head + len < tail < BUFFER_SIZE
    ensures Circular(cells, tail, head + len) == Circular(cells, tail, head) + cells[head..head + len]
  {
    assert cells[..head + len] == cells[..head] + cells[head..head + len];
  }

  /** Moving the head forward over a stretch that ends before the tail, or at the array's end,
      appends exactly that stretch. */
  lemma AdvanceHead(cells: seq<byte>, tail: int, head: int, len: int)
    requires |cells| == BUFFER_SIZE && 0 <= tail < BUFFER_SIZE && 0 <= head < BUFFER_SIZE && 0 <= len
    requires if tail <= head then head + len <= BUFFER_SIZE && (tail == 0 ==> head + len < BUFFER_SIZE)
             else head + len < tail
    ensures Circular(cells, tail, (head + len) % BUFFER_SIZE) == Circular(cells, tail, head) + cells[head..head + len]
  {
    hide Circular;
    if head + len == BUFFER_SIZE {
      AdvanceToEnd(cells, tail, head);
    } else if tail <= head {
      AdvanceBeforeWrap(cells, tail, head, len);
    } else {
      AdvanceAfterWrap(cells, tail, head, len);
    }
  }

  lemma DropFirst(a: seq<byte>, b: seq<byte>, n: nat)
    requires n <= |a| + |b|
    ensures (a + b)[n..] == if n < |a| then a[n..] + b else b[n - |a|..]
  {
  }

  lemma DropUnwrapped(cells: seq<byte>, tail: int, head: int, len: int)
    requires |cells| == BUFFER_SIZE && 0 <= tail && 0 <= len && tail + len <= head < BUFFER_SIZE
    ensures Circular(cells, tail + len, head) == Circular(cells, tail, head)[len..]
  {
    assert cells[tail..head][len..] == cells[tail + len..head];
  }

  lemma DropBeforeWrap(cells: seq<byte>, tail: int, head: int, len: int)
    requires |cells| == BUFFER_SIZE && 0 <= head < tail && 0 <= len && tail + len < BUFFER_SIZE
    ensures Circular(cells, tail + len, head) == Circular(cells, tail, head)[len..]
  {
    DropFirst(cells[tail..], cells[..head], len);
    assert cells[tail..][len..] == cells[tail + len..];
  }

  lemma DropAfterWrap(cells: seq<byte>, tail: int, head: int, len: int)
    requires |cells| == BUFFER_SIZE && 0 <= head < tail < BUFFER_SIZE && 0 <= tail + len - BUFFER_SIZE <= head
    ensures Circular(cells, tail + len - BUFFER_SIZE, head) == Circular(cells, tail, head)[len..]
  {
    DropFirst(cells[tail..], cells[..head], len);
    assert cells[..head][tail + len - BUFFER_SIZE..] == cells[tail + len - BUFFER_SIZE..head];
  }

  lemma AdvanceTail(cells: seq<byte>, tail: int, head: int, len: int)
    requires |cells| == BUFFER_SIZE && 0 <= tail < BUFFER_SIZE && 0 <= head < BUFFER_SIZE
    requires 0 <= len <= |Circular(cells, tail, head)|
    ensures Circular(cells, (tail + len) % BUFFER_SIZE, head) == Circular(cells, tail, head)[len..]
  {
    hide Circular;
    if tail <= head {
      DropUnwrapped(cells, tail, head, len);
    } else if tail + len < BUFFER_SIZE {
      DropBeforeWrap(cells, tail, head, len);
    } else {
      DropAfterWrap(cells, tail, head, len);
    }
  }

  class RingBuffer {
    const buffer: array<byte>
    var head: int // next cell to write
    var tail: int // next cell to read

    ghost predicate Valid()
      reads this
    {
      buffer.Length == BUFFER_SIZE && 0 <= head < BUFFER_SIZE && 0 <= tail < BUFFER_SIZE
    }

    /** The queued bytes, oldest first. */
    ghost function Contents(): (q: seq<byte>)
      requires Valid()
      reads this, buffer
      ensures |q| < BUFFER_SIZE
    {
      Circular(buffer[..], tail, head)
    }

    constructor ()
      ensures Valid() && Contents() == [] && fresh(buffer)
    {
      buffer := new byte[BUFFER_SIZE];
      head, tail := 0, 0;
    }

    function GetUsedSize(): (n: int)
      requires Valid()
      reads this, buffer
      ensures n == |Contents()|
    {
      (head - tail + BUFFER_SIZE) % BUFFER_SIZE
    }

    function GetFreeSize(): (n: int)
      requires Valid()
      reads this, buffer
      ensures |Contents()| + n == 8191
    {
      BUFFER_SIZE - 1 - GetUsedSize()
    }

    /** Size of the window that starts at `head`. It never exceeds the free space, stays inside the
        array, and is empty only when the buffer is full. */
    function GetContiguousWriteSize(): (n: int)
      requires Valid()
      reads this, buffer
      ensures 0 <= n <= BUFFER_SIZE - 1 - |Contents()|
      ensures head + n <= BUFFER_SIZE
      ensures n == 0 <==> |Contents()| == BUFFER_SIZE - 1
      ensures n == if 8192 - head < GetFreeSize() then 8192 - head else GetFreeSize()
    {
      if tail <= head then
        var toEnd := BUFFER_SIZE - head;
        if tail == 0 then toEnd - 1 else toEnd
      else
        tail - head - 1
    }

    /** No cell of the write window holds a queued byte. */
    lemma WindowIsFree(i: int)
      requires Valid() && head <= i < head + GetContiguousWriteSize()
      ensures !Queued(tail, |Contents()|, i)
    {
    }

    /** What the network does between posting a receive and its completion: bytes appear at the
        start of the write window. No queued byte is touched. */
    method Fill(data: seq<byte>)
      requires Valid() && |data| <= GetContiguousWriteSize()
      modifies buffer
      ensures Valid() && Contents() == old(Contents())
      ensures buffer[head..head + |data|] == data
    {
      forall i | 0 <= i < |data| {
        buffer[head + i] := data[i];
      }
    }

    method OnWrite(len: int)
      requires Valid() && 0 <= len <= GetContiguousWriteSize()
      modifies this`head
      ensures Valid()
      ensures Contents() == old(Contents()) + old(buffer[head..head + len])
    {
      AdvanceHead(buffer[..], tail, head, len);
      assert buffer[..][head..head + len] == buffer[head..head + len];
      head := (head + len) % BUFFER_SIZE;
    }

    /** Copies the first `len` queued bytes out, in two pieces when they wrap. */
    method Peek(dest: array<byte>, len: int) returns (ok: bool)
      requires Valid() && dest != buffer && 0 <= len <= dest.Length
      modifies dest
      ensures ok <==> len <= |Contents()|
      ensures Valid() && Contents() == old(Contents())
      ensures dest[..] == if ok then Contents()[..len] + old(dest[len..]) else old(dest[..])
    {
      if GetUsedSize() < len {
        return false;
      }
      forall i | 0 <= i < len
        ensures Contents()[i] == if i < BUFFER_SIZE - tail then buffer[tail + i] else buffer[i - (BUFFER_SIZE - tail)]
      {
        CircularAt(buffer[..], tail, head, i);
      }
      ghost var q, was := Contents(), dest[..];
      var tailToEnd := BUFFER_SIZE - tail;
      if tailToEnd >= len {
        forall i | 0 <= i < len {
          dest[i] := buffer[tail + i];
        }
      } else {
        forall i | 0 <= i < tailToEnd {
          dest[i] := buffer[tail + i];
        }
        forall i | 0 <= i < len - tailToEnd {
          dest[tailToEnd + i] := buffer[i];
        }
      }
      assert dest[..] == q[..len] + was[len..];
      return true;
    }

    method Pop(len: int) returns (ok: bool)
      requires Valid() && 0 <= len
      modifies this`tail
      ensures Valid()
      ensures ok <==> len <= old(|Contents()|)
      ensures Contents() == if ok then old(Contents())[len..] else old(Contents())
    {
      if GetUsedSize() < len {
        return false;
      }
      AdvanceTail(buffer[..], tail, head, len);
      tail := (tail + len) % BUFFER_SIZE;
      return true;
    }
  }
}
