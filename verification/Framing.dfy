/** Cutting the byte stream into packets: what the two receive loops, the server's over the ring
    buffer and the stress tool's over a linear buffer, compute, and why it does not depend on how
    the stream is split into receives. */
module Framing {
  import opened RingBuffers

  const HEADER_SIZE: int := 4
  const MAX_PACKET: int := 512
  const MAX_RECEIVE: int := 1024
  const ACCUM_CAPACITY: int := 2048

  /** The little-endian 16-bit size field at the start of the header. */
  function SizeField(q: seq<byte>): int
    requires |q| >= 2
  {
    var low: int, high: int := q[0], q[1];
    low + 256 * high
  }

  /** Every size field the loop will read lies in 1..512: the loop advances, and the packet fits
      the receiver's local buffer. */
  predicate Framed(q: seq<byte>)
    decreases |q|
  {
    |q| < HEADER_SIZE
    || (1 <= SizeField(q) <= MAX_PACKET && (|q| < SizeField(q) || Framed(q[SizeField(q)..])))
  }

  predicate HasPacket(q: seq<byte>) {
    |q| >= HEADER_SIZE && |q| >= SizeField(q)
  }

  /** The packets that can be cut off the front of `q`, in order. */
  function Packets(q: seq<byte>): seq<seq<byte>>
    requires Framed(q)
    decreases |q|
  {
    if HasPacket(q) then [q[..SizeField(q)]] + Packets(q[SizeField(q)..]) else []
  }

  /** The incomplete packet that is left. */
  function Rest(q: seq<byte>): seq<byte>
    requires Framed(q)
    decreases |q|
  {
    if HasPacket(q) then Rest(q[SizeField(q)..]) else q
  }

  function Concat(chunks: seq<seq<byte>>): seq<byte> {
    if chunks == [] then [] else chunks[0] + Concat(chunks[1..])
  }

  // ------------------------------------------------------------------ laws

  lemma ConcatCons(first: seq<byte>, chunks: seq<seq<byte>>)
    ensures Concat([first] + chunks) == first + Concat(chunks)
  {
    assert ([first] + chunks)[1..] == chunks;
  }

  lemma Associate(a: seq<byte>, b: seq<byte>, c: seq<byte>)
    ensures (a + b) + c == a + (b + c)
  {
  }

  /** One turn of the loop. */
  lemma TakeOne(q: seq<byte>)
    requires Framed(q) && HasPacket(q)
    ensures 1 <= SizeField(q) <= |q| && Framed(q[SizeField(q)..])
    ensures Packets(q) == [q[..SizeField(q)]] + Packets(q[SizeField(q)..]) && Rest(q) == Rest(q[SizeField(q)..])
  {
  }

  lemma NothingToTake(q: seq<byte>)
    requires Framed(q) && !HasPacket(q)
    ensures Packets(q) == [] && Rest(q) == q
  {
  }

  /** Less than one packet stays behind. */
  lemma {:induction false} RestIsIncomplete(q: seq<byte>)
    requires Framed(q)
    ensures |Rest(q)| < 512 && !HasPacket(Rest(q)) && Framed(Rest(q))
    decreases |q|
  {
    if HasPacket(q) {
      TakeOne(q);
      RestIsIncomplete(q[SizeField(q)..]);
    }
  }

  /** Nothing is lost, duplicated or reordered, and less than one packet stays behind. */
  lemma {:induction false} PacketsConserveBytes(q: seq<byte>)
    requires Framed(q)
    ensures Concat(Packets(q)) + Rest(q) == q
    ensures |Rest(q)| < 512 && !HasPacket(Rest(q)) && Framed(Rest(q))
    ensures |q| < 4 ==> Packets(q) == []
    decreases |q|
  {
    hide Framed, Packets, Rest, SizeField;
    RestIsIncomplete(q);
    if HasPacket(q) {
      TakeOne(q);
      var n := SizeField(q);
      var first, later := q[..n], q[n..];
      PacketsConserveBytes(later);
      ConcatCons(first, Packets(later));
      assert q == first + later;
      Associate(first, Concat(Packets(later)), Rest(later));
    } else {
      NothingToTake(q);
      assert [] + q == q;
    }
  }

  /** Cutting what has arrived and later cutting the rest gives the same as cutting everything at once. */
  lemma {:induction false} PacketsOfAppend(a: seq<byte>, b: seq<byte>)
    requires Framed(a + b)
    ensures Framed(a) && Framed(Rest(a) + b)
    ensures Packets(a + b) == Packets(a) + Packets(Rest(a) + b)
    ensures Rest(a + b) == Rest(Rest(a) + b)
    decreases |a|
  {
    hide Packets, Rest;
    if HasPacket(a) {
      var n := SizeField(a);
      assert SizeField(a + b) == n;
      TakeOne(a + b);
      assert (a + b)[n..] == a[n..] + b && (a + b)[..n] == a[..n];
      PacketsOfAppend(a[n..], b);
      TakeOne(a);
      Regroup([a[..n]], Packets(a[n..]), Packets(Rest(a) + b));
    } else {
      assert |a| >= HEADER_SIZE ==> SizeField(a + b) == SizeField(a);
      NothingToTake(a);
    }
  }

  /** A receiver's pending bytes and the packets it has handled, after one more receive. */
  datatype Progress = Progress(pending: seq<byte>, handled: seq<seq<byte>>)

  predicate CanFeed(p: Progress, chunks: seq<seq<byte>>)
    decreases |chunks|
  {
    chunks == [] || (Framed(p.pending + chunks[0]) && CanFeed(Feed(p, chunks[0]), chunks[1..]))
  }

  function Feed(p: Progress, chunk: seq<byte>): Progress
    requires Framed(p.pending + chunk)
  {
    Progress(Rest(p.pending + chunk), p.handled + Packets(p.pending + chunk))
  }

  function FeedAll(p: Progress, chunks: seq<seq<byte>>): Progress
    requires CanFeed(p, chunks)
    decreases |chunks|
  {
    if chunks == [] then p else FeedAll(Feed(p, chunks[0]), chunks[1..])
  }

  /** However a stream is split, feeding the pieces one by one equals cutting the whole. */
  lemma {:induction false} ChunkingIsIrrelevant(p: Progress, chunks: seq<seq<byte>>)
    requires Framed(p.pending + Concat(chunks)) && !HasPacket(p.pending)
    ensures CanFeed(p, chunks)
    ensures FeedAll(p, chunks) ==
      Progress(Rest(p.pending + Concat(chunks)), p.handled + Packets(p.pending + Concat(chunks)))
    decreases |chunks|
  {
    if chunks == [] {
      assert p.pending + Concat(chunks) == p.pending;
      assert Packets(p.pending) == [];
    } else {
      var q, later := p.pending + chunks[0], Concat(chunks[1..]);
      assert p.pending + Concat(chunks) == q + later;
      PacketsOfAppend(q, later);
      PacketsConserveBytes(q);
      ChunkingIsIrrelevant(Feed(p, chunks[0]), chunks[1..]);
      Regroup(p.handled, Packets(q), Packets(Rest(q) + later));
    }
  }

  lemma Regroup(a: seq<seq<byte>>, b: seq<seq<byte>>, c: seq<seq<byte>>)
    ensures a + b + c == a + (b + c)
  {
  }

  /** Two receivers that see the same stream, each split its own way, end up having handled the same packets. */
  lemma FramersAgree(chunks: seq<seq<byte>>, chunks': seq<seq<byte>>)
    requires Framed(Concat(chunks)) && Concat(chunks) == Concat(chunks')
    ensures var start := Progress([], []);
      CanFeed(start, chunks) && CanFeed(start, chunks') && FeedAll(start, chunks) == FeedAll(start, chunks')
  {
    var start := Progress([], []);
    assert [] + Concat(chunks) == Concat(chunks) == [] + Concat(chunks');
    ChunkingIsIrrelevant(start, chunks);
    ChunkingIsIrrelevant(start, chunks');
  }

  /** A packet as senders build it: a four-byte header at least, 512 bytes at most, and its whole length,
      header included, in the first two bytes, low byte first. */
  predicate WellFormed(packet: seq<byte>) {
    && 4 <= |packet| <= 512
    && packet[0] == |packet| % 256 && packet[1] == |packet| / 256
  }

  /** The round trip: a concatenation of well-formed packets is cut into exactly those packets. */
  lemma {:induction false} PacketsRoundTrip(packets: seq<seq<byte>>)
    requires forall p :: p in packets ==> WellFormed(p)
    ensures Framed(Concat(packets)) && Packets(Concat(packets)) == packets && Rest(Concat(packets)) == []
  {
    if packets != [] {
      var p, q := packets[0], Concat(packets);
      PacketsRoundTrip(packets[1..]);
      assert p in packets;
      assert q[..|p|] == p && q[|p|..] == Concat(packets[1..]);
      assert SizeField(q) == SizeField(p);
    }
  }

  // ------------------------------------------------------- when the loop ends

  /** The buffer after `n` turns of the extraction loop, for any bytes at all: a turn that finds a
      complete packet drops as many bytes as its size field says. */
  function AfterTurns(q: seq<byte>, n: nat): seq<byte>
    decreases n
  {
    if n == 0 || !HasPacket(q) then q else AfterTurns(q[SizeField(q)..], n - 1)
  }

  /** No size field the loop reads is 0. */
  predicate NoZeroSize(q: seq<byte>)
    decreases |q|
  {
    HasPacket(q) ==> SizeField(q) != 0 && NoZeroSize(q[SizeField(q)..])
  }

  /** The extraction loop ends exactly when it never reads a size of 0: such a turn takes nothing out
      of the buffer, and so the next one reads the same size again. */
  lemma {:induction false} LoopEndsIff(q: seq<byte>)
    ensures (exists n: nat :: !HasPacket(AfterTurns(q, n))) <==> NoZeroSize(q)
    decreases |q|
  {
    if !HasPacket(q) {
      assert AfterTurns(q, 0) == q;
    } else if SizeField(q) == 0 {
      forall n: nat ensures HasPacket(AfterTurns(q, n)) {
        StuckOnZero(q, n);
      }
    } else {
      var rest := q[SizeField(q)..];
      LoopEndsIff(rest);
      if n: nat :| !HasPacket(AfterTurns(rest, n)) {
        assert AfterTurns(q, n + 1) == AfterTurns(rest, n);
      }
      if n: nat :| !HasPacket(AfterTurns(q, n)) {
        assert n > 0 && AfterTurns(q, n) == AfterTurns(rest, n - 1);
      }
    }
  }

  lemma {:induction false} StuckOnZero(q: seq<byte>, n: nat)
    requires HasPacket(q) && SizeField(q) == 0
    ensures AfterTurns(q, n) == q
  {
    if n > 0 {
      assert q[0..] == q;
      StuckOnZero(q, n - 1);
    }
  }

  /** Where the receivers' contracts below apply, the loop ends. */
  lemma {:induction false} FramedHasNoZeroSize(q: seq<byte>)
    requires Framed(q)
    ensures NoZeroSize(q)
    decreases |q|
  {
    if HasPacket(q) {
      FramedHasNoZeroSize(q[SizeField(q)..]);
    }
  }

  // ---------------------------------------------------------------- the server

  /** After its first `k` bytes the receiver is where feeding them at once would have taken it. */
  ghost predicate Fed(start: Progress, stream: seq<byte>, k: nat, now: Progress)
    requires k <= |stream|
  {
    Framed(start.pending + stream[..k]) && now == Feed(start, stream[..k])
  }

  lemma NothingYet(start: Progress, stream: seq<byte>)
    requires Framed(start.pending) && !HasPacket(start.pending)
    ensures Fed(start, stream, 0, start)
  {
    assert start.pending + stream[..0] == start.pending;
  }

  lemma FedAll(start: Progress, stream: seq<byte>, now: Progress)
    requires Fed(start, stream, |stream|, now)
    ensures Framed(start.pending + stream) && now == Feed(start, stream)
  {
    assert stream[..|stream|] == stream;
  }

  lemma FedMore(start: Progress, stream: seq<byte>, k: nat, now: Progress, n: nat)
    requires k + n <= |stream| && Framed(start.pending + stream) && Fed(start, stream, k, now)
    ensures Framed(now.pending + stream[k..k + n])
    ensures Fed(start, stream, k + n, Feed(now, stream[k..k + n]))
  {
    hide Framed, Packets, Rest;
    var a, b, c := start.pending + stream[..k], stream[k..k + n], stream[k + n..];
    assert start.pending + stream == a + b + c;
    assert start.pending + stream[..k + n] == a + b;
    PacketsOfAppend(a + b, c);
    PacketsOfAppend(a, b);
    Regroup(start.handled, Packets(a), Packets(Rest(a) + b));
  }

  /** How many bytes the next receive completes with: at least one, and no more than it can take. */
  function ChunkSize(sizes: seq<nat>, turn: nat, limit: nat): (n: nat)
    requires limit > 0
    ensures 1 <= n <= limit
    ensures turn < |sizes| && 1 <= sizes[turn] <= limit ==> n == sizes[turn]
  {
    if turn < |sizes| && 1 <= sizes[turn] <= limit then sizes[turn] else limit
  }

  class Session {
    const recvBuffer: RingBuffer
    var handled: seq<seq<byte>> // the packets given to the packet handler, in order
    var recvPos: int            // the posted receive window
    var recvLen: int

    ghost predicate Valid()
      reads this, recvBuffer, recvBuffer.buffer
    {
      && recvBuffer.Valid()
      && recvPos == recvBuffer.head && recvLen == recvBuffer.GetContiguousWriteSize()
      && Framed(recvBuffer.Contents()) && !HasPacket(recvBuffer.Contents())
    }

    ghost function State(): Progress
      requires recvBuffer.Valid()
      reads this, recvBuffer, recvBuffer.buffer
    {
      Progress(recvBuffer.Contents(), handled)
    }

    constructor ()
      ensures Valid() && State() == Progress([], []) && recvLen > 0
      ensures fresh(recvBuffer) && fresh(recvBuffer.buffer)
    {
      recvBuffer := new RingBuffer();
      handled := [];
      new;
      PostRecv();
    }

    method PostRecv()
      requires recvBuffer.Valid()
      modifies this`recvPos, this`recvLen
      ensures recvPos == recvBuffer.head && recvLen == recvBuffer.GetContiguousWriteSize()
      ensures 0 <= recvPos && 0 <= recvLen && recvPos + recvLen <= BUFFER_SIZE
      ensures |recvBuffer.Contents()| + recvLen < BUFFER_SIZE
      ensures forall i :: recvPos <= i < recvPos + recvLen ==> !Queued(recvBuffer.tail, |recvBuffer.Contents()|, i)
      ensures recvLen == 0 <==> |recvBuffer.Contents()| == BUFFER_SIZE - 1
    {
      recvPos := recvBuffer.head;
      recvLen := recvBuffer.GetContiguousWriteSize();
      forall i | recvPos <= i < recvPos + recvLen ensures !Queued(recvBuffer.tail, |recvBuffer.Contents()|, i) {
        recvBuffer.WindowIsFree(i);
      }
    }

    /** One turn of the extraction loop: hands over the first packet if it is complete. */
    method TakePacket() returns (taken: bool)
      requires recvBuffer.Valid() && |recvBuffer.Contents()| >= HEADER_SIZE
      requires HasPacket(recvBuffer.Contents()) ==> SizeField(recvBuffer.Contents()) <= MAX_PACKET
      modifies this`handled, recvBuffer`tail
      ensures recvBuffer.Valid() && recvBuffer.head == old(recvBuffer.head)
      ensures taken == HasPacket(old(recvBuffer.Contents()))
      ensures taken ==> handled == old(handled) + [old(recvBuffer.Contents())[..SizeField(old(recvBuffer.Contents()))]]
      ensures taken ==> recvBuffer.Contents() == old(recvBuffer.Contents())[SizeField(old(recvBuffer.Contents()))..]
      ensures !taken ==> handled == old(handled) && recvBuffer.Contents() == old(recvBuffer.Contents())
    {
      ghost var pending := recvBuffer.Contents();
      var header := new byte[HEADER_SIZE];
      var peeked := recvBuffer.Peek(header, HEADER_SIZE);
      var size := SizeField(header[..]);
      assert size == SizeField(pending);
      if recvBuffer.GetUsedSize() < size {
        return false;
      }
      var packetBuf := new byte[MAX_PACKET];
      peeked := recvBuffer.Peek(packetBuf, size);
      assert packetBuf[..size] == packetBuf[..][..size] == pending[..size];
      var popped := recvBuffer.Pop(size);
      handled := handled + [packetBuf[..size]];
      return true;
    }

    /** The extraction loop: hands over every complete packet in the buffer. */
    method TakePackets()
      requires recvBuffer.Valid() && Framed(recvBuffer.Contents())
      modifies this`handled, recvBuffer`tail
      ensures recvBuffer.Valid()
      ensures handled == old(handled) + Packets(old(recvBuffer.Contents()))
      ensures recvBuffer.Contents() == Rest(old(recvBuffer.Contents()))
    {
      ghost var q := recvBuffer.Contents();
      while recvBuffer.GetUsedSize() >= HEADER_SIZE
        invariant recvBuffer.Valid() && Framed(recvBuffer.Contents())
        invariant handled + Packets(recvBuffer.Contents()) == old(handled) + Packets(q)
        invariant Rest(recvBuffer.Contents()) == Rest(q)
        decreases |recvBuffer.Contents()|
      {
        ghost var pending, done := recvBuffer.Contents(), handled;
        var taken := TakePacket();
        if !taken {
          break;
        }
        Regroup(done, [pending[..SizeField(pending)]], Packets(recvBuffer.Contents()));
      }
      assert Packets(recvBuffer.Contents()) == [];
    }

    /** Extracts what is complete and posts the next receive, whose window is never empty. */
    method Drain()
      requires recvBuffer.Valid() && Framed(recvBuffer.Contents())
      modifies this, recvBuffer`tail
      ensures Valid() && recvLen > 0
      ensures State() == Progress(Rest(old(recvBuffer.Contents())), old(handled) + Packets(old(recvBuffer.Contents())))
    {
      PacketsConserveBytes(recvBuffer.Contents());
      TakePackets();
      PostRecv();
    }

    /** A receive of `bytes` bytes has completed: they sit at the start of the posted window. */
    method OnRecvComplete(bytes: int)
      requires Valid() && 0 <= bytes <= recvLen
      requires Framed(recvBuffer.Contents() + recvBuffer.buffer[recvPos..recvPos + bytes])
      modifies this, recvBuffer
      ensures Valid() && recvLen > 0
      ensures State() == Feed(old(State()), old(recvBuffer.buffer[recvPos..recvPos + bytes]))
    {
      recvBuffer.OnWrite(bytes);
      Drain();
    }

    /** The network delivers `data` into the posted window, and the completion is processed. */
    method Receive(data: seq<byte>)
      requires Valid() && |data| <= recvLen && Framed(recvBuffer.Contents() + data)
      modifies this, recvBuffer, recvBuffer.buffer
      ensures Valid() && recvLen > 0
      ensures State() == Feed(old(State()), data)
    {
      hide Framed, HasPacket, Packets, Rest, Circular;
      recvBuffer.Fill(data);
      OnRecvComplete(|data|);
    }

    lemma Ready()
      requires Valid()
      ensures recvBuffer.Valid() && Framed(State().pending) && !HasPacket(State().pending)
      ensures State().pending == recvBuffer.Contents()
    {
    }

    /** A whole stream arrives. How much each receive completes with is decided by `sizes`, within what
        the posted window takes; whatever the split, the outcome is the same. */
    method ReceiveStream(stream: seq<byte>, sizes: seq<nat>)
      requires Valid() && recvLen > 0 && Framed(recvBuffer.Contents() + stream)
      modifies this, recvBuffer, recvBuffer.buffer
      ensures Valid() && recvLen > 0
      ensures State() == Feed(old(State()), stream)
    {
      hide *;
      Ready();
      ghost var start := State();
      var done, turn := 0, 0;
      NothingYet(start, stream);
      while done < |stream|
        invariant 0 <= done <= |stream| && Valid() && recvBuffer.Valid() && recvLen > 0
        invariant Fed(start, stream, done, State())
        decreases |stream| - done
      {
        var n := ChunkSize(sizes, turn, if recvLen < |stream| - done then recvLen else |stream| - done);
        FedMore(start, stream, done, State(), n);
        Ready();
        Receive(stream[done..done + n]);
        Ready();
        done, turn := done + n, turn + 1;
      }
      FedAll(start, stream, State());
    }
  }

  // ------------------------------------------------------------ the stress tool

  class BotClient {
    const accum: array<byte>
    var accumSize: int
    var handled: seq<seq<byte>>
    var connected: bool

    ghost predicate Sized()
      reads this
    {
      accum.Length == ACCUM_CAPACITY && 0 <= accumSize <= ACCUM_CAPACITY
    }

    /** Between receives only an incomplete packet is held. */
    ghost predicate Valid()
      reads this, accum
    {
      Sized() && Framed(accum[..accumSize]) && !HasPacket(accum[..accumSize])
    }

    ghost function State(): Progress
      requires Sized()
      reads this, accum
    {
      Progress(accum[..accumSize], handled)
    }

    constructor ()
      ensures Valid() && State() == Progress([], []) && connected && fresh(accum)
    {
      accum := new byte[ACCUM_CAPACITY];
      accumSize, handled, connected := 0, [], true;
    }

    /** Appends a receive, or drops the connection when it does not fit. */
    method Append(io: seq<byte>) returns (ok: bool)
      requires Sized()
      modifies this`accumSize, this`connected, accum
      ensures Sized() && ok == (old(accumSize) + |io| <= ACCUM_CAPACITY)
      ensures connected == (old(connected) && ok)
      ensures accum[..accumSize] == if ok then old(accum[..accumSize]) + io else old(accum[..accumSize])
    {
      if accumSize + |io| <= ACCUM_CAPACITY {
        forall i | 0 <= i < |io| {
          accum[accumSize + i] := io[i];
        }
        accumSize := accumSize + |io|;
        return true;
      } else {
        connected := false;
        return false;
      }
    }

    /** One turn of the extraction loop: processes the first packet and moves the rest to the front. */
    method TakePacket() returns (taken: bool)
      requires Sized() && HEADER_SIZE <= accumSize
      modifies this`handled, this`accumSize, accum
      ensures Sized()
      ensures taken == HasPacket(old(accum[..accumSize]))
      ensures taken ==> handled == old(handled) + [old(accum[..accumSize])[..SizeField(old(accum[..accumSize]))]]
      ensures taken ==> accum[..accumSize] == old(accum[..accumSize])[SizeField(old(accum[..accumSize]))..]
      ensures !taken ==> handled == old(handled) && accum[..accumSize] == old(accum[..accumSize])
    {
      ghost var pending := accum[..accumSize];
      var size := SizeField(accum[..HEADER_SIZE]);
      assert size == SizeField(pending);
      if accumSize < size {
        return false;
      }
      assert accum[..size] == pending[..size];
      handled := handled + [accum[..size]];
      var remain := accumSize - size;
      forall i | 0 <= i < remain {
        accum[i] := accum[size + i];
      }
      accumSize := remain;
      assert accum[..accumSize] == pending[size..];
      return true;
    }

    /** The extraction loop over the linear buffer. */
    method TakePackets()
      requires Sized() && Framed(accum[..accumSize])
      modifies this`handled, this`accumSize, accum
      ensures Sized() && accum[..accumSize] == Rest(old(accum[..accumSize]))
      ensures handled == old(handled) + Packets(old(accum[..accumSize]))
    {
      ghost var q := accum[..accumSize];
      while accumSize >= HEADER_SIZE
        invariant Sized() && Framed(accum[..accumSize])
        invariant handled + Packets(accum[..accumSize]) == old(handled) + Packets(q)
        invariant Rest(accum[..accumSize]) == Rest(q)
        decreases accumSize
      {
        ghost var pending, done := accum[..accumSize], handled;
        var taken := TakePacket();
        if !taken {
          break;
        }
        assert |accum[..accumSize]| == |pending| - SizeField(pending);
        Regroup(done, [pending[..SizeField(pending)]], Packets(accum[..accumSize]));
      }
      assert Packets(accum[..accumSize]) == [];
    }

    /** One completed receive of the stress tool. Starting from an incomplete packet it always fits,
        so the overflow branch is never taken and the connection survives. */
    method OnRecv(io: seq<byte>)
      requires Sized() && |io| <= 1024 && Framed(accum[..accumSize]) && Framed(accum[..accumSize] + io)
      modifies this, accum
      ensures Sized()
      ensures old(accumSize) + |io| <= ACCUM_CAPACITY ==> Valid() && State() == Feed(old(State()), io)
      ensures connected == (old(connected) && old(accumSize) + |io| <= 2048)
      ensures old(Valid()) ==> old(accumSize) + |io| <= ACCUM_CAPACITY
    {
      PacketsConserveBytes(accum[..accumSize]);
      ghost var q := accum[..accumSize] + io;
      var ok := Append(io);
      if !ok {
        return;
      }
      TakePackets();
      PacketsConserveBytes(q);
    }

    method OnRecvPart(ghost start: Progress, stream: seq<byte>, done: nat, n: nat)
      requires Valid() && done + n <= |stream| && n <= 1024
      requires Framed(start.pending + stream) && Fed(start, stream, done, State())
      modifies this, accum
      ensures Valid() && connected == old(connected)
      ensures Fed(start, stream, done + n, State())
    {
      hide Fed, Packets, Rest, Feed;
      FedMore(start, stream, done, State(), n);
      OnRecv(stream[done..done + n]);
    }

    /** A whole stream arrives, in receives of at most 1024 bytes. */
    method OnRecvStream(stream: seq<byte>, sizes: seq<nat>)
      requires Valid() && Framed(accum[..accumSize] + stream)
      modifies this, accum
      ensures Valid() && connected == old(connected)
      ensures State() == Feed(old(State()), stream)
    {
      ghost var start := State();
      var done, turn := 0, 0;
      NothingYet(start, stream);
      hide Fed, Framed, Packets, Rest, Feed, HasPacket;
      while done < |stream|
        invariant 0 <= done <= |stream| && Valid() && connected == old(connected)
        invariant Fed(start, stream, done, State())
        decreases |stream| - done
      {
        var n := ChunkSize(sizes, turn, if MAX_RECEIVE < |stream| - done then MAX_RECEIVE else |stream| - done);
        OnRecvPart(start, stream, done, n);
        done, turn := done + n, turn + 1;
      }
      FedAll(start, stream, State());
    }
  }

  /** The two framers agree: the server's session and the stress tool's client, fed the same stream, each
      in receives of its own sizes, hand over the same packets; and if the stream is a concatenation of
      well-formed packets, exactly those. Neither gets stuck: the session's next window is not empty,
      and the client is not disconnected. */
  method BothFramers(ghost packets: seq<seq<byte>>, stream: seq<byte>, sizes: seq<nat>, sizes': seq<nat>)
    returns (session: Session, bot: BotClient)
    requires Framed(stream)
    ensures session.handled == bot.handled == Packets(stream)
    ensures session.recvLen > 0 && bot.connected
    ensures (forall p :: p in packets ==> WellFormed(p)) && stream == Concat(packets) ==> session.handled == packets
  {
    hide Framed, Packets, Rest, WellFormed;
    assert [] + stream == stream;
    session := new Session();
    session.ReceiveStream(stream, sizes);
    bot := new BotClient();
    bot.OnRecvStream(stream, sizes');
    assert [] + Packets(stream) == Packets(stream);
    if forall p :: p in packets ==> WellFormed(p) {
      PacketsRoundTrip(packets);
    }
  }
}
