/** The TCP connection object: an in-place working buffer that hands out frames, with the
    optimistic path that finds the next frame behind the last one without moving bytes. */
module TcpConn {
  import opened Messages
  import opened TcpFraming
  import opened Transport

  /** What a read or write on the non-blocking socket reports: up to k bytes, would block,
      or the end of the connection. */
  datatype IoEvent = UpTo(k: nat) | Blocked | Broken

  /** What the next read meets. */
  datatype Meeting = Bytes(n: nat) | WouldWait | EndOfStream

  /** A read of at most `room` bytes with these bytes to come: bytes if there are any, the end
      of the stream only where the connection has ended. */
  function Meet(events: seq<IoEvent>, incoming: seq<byte>, room: nat): Meeting {
    if events == [] then WouldWait
    else match events[0]
      case Broken => EndOfStream
      case Blocked => WouldWait
      case UpTo(k) => if k == 0 || incoming == [] || room == 0 then WouldWait else Bytes(Min(k, Min(|incoming|, room)))
  }

  /** The bytes that such a read takes. */
  function Met(m: Meeting, incoming: seq<byte>): seq<byte> {
    if m.Bytes? && m.n <= |incoming| then incoming[..m.n] else []
  }

  function CodeOf(m: Meeting): Code {
    match m
    case Bytes(_) => ENone
    case WouldWait => EAgain
    case EndOfStream => EFin
  }

  /** Only the end of the connection is reported as EFIN, and only where nothing can be read as
      EAGAIN. */
  lemma MeetMeans(events: seq<IoEvent>, incoming: seq<byte>, room: nat)
    requires room > 0
    ensures var m := Meet(events, incoming, room);
            && (m == EndOfStream <==> events != [] && events[0] == Broken)
            && (m.Bytes? <==> incoming != [] && events != [] && events[0].UpTo? && events[0].k > 0)
            && (m.Bytes? ==> 0 < m.n <= |incoming| && m.n <= events[0].k && m.n <= room
                             && (m.n == |incoming| || m.n == events[0].k || m.n == room))
  {
  }

  function After(events: seq<IoEvent>): seq<IoEvent> {
    if events == [] then [] else events[1..]
  }

  /** How many bytes these writes take, of as many as they are given. */
  function Capacity(events: seq<IoEvent>): nat {
    if events == [] then 0
    else
      var last := events[|events| - 1];
      Capacity(events[..|events| - 1]) + if last.UpTo? then last.k else 0
  }

  /** Write k is the first to find the connection broken, and those before it have not taken
      all of `len` bytes. */
  predicate BreaksOff(events: seq<IoEvent>, len: nat, k: nat) {
    && k < |events| && events[k] == Broken && (forall i :: 0 <= i < k ==> events[i] != Broken)
    && Capacity(events[..k]) < len
  }

  lemma {:induction false} CapacityGrows(events: seq<IoEvent>, j: nat, k: nat)
    requires j <= k <= |events|
    ensures Capacity(events[..j]) <= Capacity(events[..k])
    decreases k
  {
    if j < k {
      assert events[..k][..k - 1] == events[..k - 1];
      CapacityGrows(events, j, k - 1);
    }
  }

  /** Once `len` bytes are taken by the first j writes, none of which is broken, no later one
      matters. */
  lemma AllTaken(events: seq<IoEvent>, len: nat, j: nat)
    requires j <= |events| && (forall i :: 0 <= i < j ==> events[i] != Broken)
    requires Capacity(events[..j]) >= len || j == |events|
    ensures forall k: nat :: !BreaksOff(events, len, k)
  {
    forall k: nat | BreaksOff(events, len, k) ensures false {
      CapacityGrows(events, j, k);
    }
  }

  /** The first j writes have found the connection working and taken `data` of `len` bytes. */
  predicate TakenBy(events: seq<IoEvent>, len: nat, j: nat, data: nat) {
    && j <= |events| && (forall i :: 0 <= i < j ==> events[i] != Broken)
    && (data == Min(len, Capacity(events[..j])) || (j == |events| && data == len))
  }

  /** What the next write does to that. */
  lemma OneMoreTaken(events: seq<IoEvent>, len: nat, j: nat, data: nat)
    requires TakenBy(events, len, j, data) && data < len
    ensures j < |events| && events[j] == Blocked ==> TakenBy(events, len, j + 1, data)
    ensures j < |events| && events[j].UpTo? ==> TakenBy(events, len, j + 1, data + Min(events[j].k, len - data))
    ensures j == |events| ==> TakenBy(events, len, j, len)
  {
    if j < |events| {
      assert events[..j + 1][..j] == events[..j];
    }
  }

  lemma BrokenOff(events: seq<IoEvent>, len: nat, j: nat, data: nat)
    requires TakenBy(events, len, j, data) && data < len && j < |events| && events[j] == Broken
    ensures BreaksOff(events, len, j) && data == Capacity(events[..j])
    ensures forall k: nat :: BreaksOff(events, len, k) ==> k == j
  {
  }

  lemma ChunkMoves(received: seq<byte>, wire: seq<byte>, n: nat)
    requires n <= |wire|
    ensures received + wire[..n] + wire[n..] == received + wire
  {
  }

  /** The kernel's side of the connection. */
  class Socket {
    var incoming: seq<byte>    // bytes sent by the peer and not read yet
    var readEvents: seq<IoEvent>
    var outgoing: seq<byte>    // bytes written so far
    var writeEvents: seq<IoEvent>

    constructor (incoming: seq<byte>, readEvents: seq<IoEvent>, writeEvents: seq<IoEvent>)
      ensures this.incoming == incoming && this.readEvents == readEvents && this.writeEvents == writeEvents && outgoing == []
    {
      this.incoming, this.readEvents, this.writeEvents, outgoing := incoming, readEvents, writeEvents, [];
    }

    /** Fills the front of `buffer` with the next bytes of the stream: a positive count, 0 at
        the end of the stream, or -1 if reading would block. */
    method Read(buffer: array<byte>) returns (result: int)
      modifies this`incoming, this`readEvents, buffer
      ensures -1 <= result <= buffer.Length && result <= |old(incoming)|
      ensures result == match Meet(old(readEvents), old(incoming), buffer.Length)
                        case Bytes(n) => n
                        case WouldWait => -1
                        case EndOfStream => 0
      ensures result == 0 <==> old(readEvents) != [] && old(readEvents)[0] == Broken
      ensures readEvents == After(old(readEvents))
      ensures result > 0 ==> buffer[..result] == old(incoming)[..result] && incoming == old(incoming)[result..]
      ensures result <= 0 ==> incoming == old(incoming)
    {
      result := -1;
      if readEvents != [] {
        var event := readEvents[0];
        readEvents := readEvents[1..];
        match event
        case Blocked =>
        case Broken => result := 0;
        case UpTo(k) =>
          var n := Min(k, Min(|incoming|, buffer.Length));
          if n > 0 {
            forall i | 0 <= i < n {
              buffer[i] := incoming[i];
            }
            incoming := incoming[n..];
            result := n;
          }
      }
    }

    /** Writes some of the bytes: a count, or -1 with `again` saying whether to retry. A
        kernel with nothing more to report takes everything. */
    method Write(data: seq<byte>) returns (written: int, again: bool)
      modifies this`outgoing, this`writeEvents
      ensures -1 <= written <= |data|
      ensures written < 0 ==> old(writeEvents) != [] && old(writeEvents)[0] == if again then Blocked else Broken
      ensures written == if old(writeEvents) == [] then |data|
                         else if old(writeEvents)[0].UpTo? then Min(old(writeEvents)[0].k, |data|) else -1
      ensures outgoing == old(outgoing) + if written >= 0 then data[..written] else []
      ensures writeEvents == After(old(writeEvents))
    {
      written, again := |data|, false;
      if writeEvents != [] {
        match writeEvents[0] {
          case UpTo(k) => written := Min(k, |data|);
          case Blocked => written, again := -1, true;
          case Broken => written := -1;
        }
        writeEvents := writeEvents[1..];
      }
      if written >= 0 {
        outgoing := outgoing + data[..written];
      }
    }
  }

  /** Every buffer-full of bytes holds a whole frame. */
  ghost predicate FramesFit(d: Delimiter, size: nat) {
    forall s: seq<byte> {:trigger FrameLen(d, s)} :: |s| >= size ==> FrameLen(d, s) > 0
  }

  ghost predicate GrownOnce(d: Delimiter, initial: nat, size: nat) {
    FramesFit(d, initial) ==> size == initial || size == 2 * initial
  }

  /** The stream is the consumed frames and the buffered bytes, cut in the right places. */
  ghost predicate Splits(d: Delimiter, received: seq<byte>, consumed: seq<seq<byte>>, buffered: seq<byte>) {
    received == Concat(consumed) + buffered && Frames(d, received) == consumed + Frames(d, buffered)
  }

  /** The size that doubling reaches first for this need. */
  function Fitted(size: nat, need: nat): (r: nat)
    requires size > 0
    ensures r >= need && r >= size
    decreases if need > size then need - size else 0
  {
    if need <= size then size else Fitted(2 * size, need)
  }

  function Doubled(size: nat, k: nat): nat {
    if k == 0 then size else 2 * Doubled(size, k - 1)
  }

  /** It is the first that is large enough of the sizes that doubling goes through. */
  lemma {:induction false} FittedIsFirst(size: nat, need: nat) returns (k: nat)
    requires size > 0
    ensures Fitted(size, need) == Doubled(size, k) >= need
    ensures forall i: nat :: i < k ==> Doubled(size, i) < need
    decreases if need > size then need - size else 0
  {
    k := 0;
    if need > size {
      var k' := FittedIsFirst(2 * size, need);
      k := k' + 1;
      forall i: nat | i < k ensures Doubled(size, i) < need {
        if i > 0 {
          DoubledShift(size, i - 1);
        }
      }
      DoubledShift(size, k');
    }
  }

  lemma {:induction false} DoubledShift(size: nat, k: nat)
    ensures Doubled(size, k + 1) == Doubled(2 * size, k)
  {
    if k > 0 {
      DoubledShift(size, k - 1);
    }
  }

  /** The working buffer before and after a frame that ended at `next`, with `left` bytes
      behind it, was released: the memmove happens only if there is not another frame. */
  predicate Released(was: seq<byte>, now: seq<byte>, next: nat, left: nat, another: bool) {
    && |now| == |was| && next + left <= |was|
    && if another then now == was else now[..left] == was[next..next + left] && now[left..] == was[left..]
  }

  /** THE RELEASED FRAME. The client reads a message after it has released it. The frame's
      bytes are then still there exactly if another frame follows, or what is left, if
      anything, does not reach it when it is moved to the front, or is the same there. */
  lemma ReleasedFrameSurvives(was: seq<byte>, now: seq<byte>, at: nat, n: nat, left: nat, another: bool)
    requires Released(was, now, at + n, left, another)
    ensures var reach := Min(left, at + n);
            now[at..at + n] == was[at..at + n]
            <==> (another || left <= at || was[at + n + at..at + n + reach] == was[at..reach])
  {
    var x, y := now[at..at + n], was[at..at + n];
    if another || left <= at {
      forall k | 0 <= k < n ensures x[k] == y[k] {
        ByteAfterRelease(was, now, at + n, left, another, at + k);
      }
    } else {
      var reach := Min(left, at + n);
      var moved := was[at + n + at..at + n + reach];
      MovedFront(was, now, at, n, left);
      FrontDecides(moved, y);
      assert y[..reach - at] == was[at..reach];
    }
  }

  lemma ByteAfterRelease(was: seq<byte>, now: seq<byte>, next: nat, left: nat, another: bool, k: nat)
    requires Released(was, now, next, left, another) && k < |was|
    ensures now[k] == if !another && k < left then was[next + k] else was[k]
  {
    if !another {
      if k < left {
        assert now[k] == now[..left][k] == was[next..next + left][k];
      } else {
        assert now[k] == now[left..][k - left] == was[left..][k - left];
      }
    }
  }

  lemma MovedFront(was: seq<byte>, now: seq<byte>, at: nat, n: nat, left: nat)
    requires Released(was, now, at + n, left, false) && left > at
    ensures var reach := Min(left, at + n);
            now[at..at + n] == was[at + n + at..at + n + reach] + was[at..at + n][reach - at..]
  {
    var reach := Min(left, at + n);
    var x, z := now[at..at + n], was[at + n + at..at + n + reach] + was[at..at + n][reach - at..];
    forall k | 0 <= k < n ensures x[k] == z[k] {
      ByteAfterRelease(was, now, at + n, left, false, at + k);
    }
  }

  lemma FrontDecides(front: seq<byte>, s: seq<byte>)
    requires |front| <= |s|
    ensures front + s[|front|..] == s <==> front == s[..|front|]
  {
    assert s == s[..|front|] + s[|front|..];
    assert (front + s[|front|..])[..|front|] == front;
  }

  /** The input on which they are not: a frame at the front and one byte of the next. */
  lemma ReleasedFrameIsOverwritten(a: byte, b: byte, x: byte, now: seq<byte>)
    requires a != x && Released([a, b, x], now, 2, 1, false)
    ensures now[0] == x && now[0..2] != [a, b]
  {
    assert now[0] == now[..1][0] == [a, b, x][2..3][0] && now[0..2][0] == now[0];
  }

  /** memcpy of the first `len` bytes of `source` to offset `at`. */
  method Memcpy(target: array<byte>, at: nat, source: array<byte>, len: nat)
    requires target != source && at + len <= target.Length && len <= source.Length
    modifies target
    ensures target[..at] == old(target[..at]) && target[at..at + len] == source[..len]
  {
    forall i | 0 <= i < len {
      target[at + i] := source[i];
    }
    assert forall i :: 0 <= i < at ==> target[i] == old(target[i]);
  }

  class Conn {
    const delim: Delimiter
    const sock: Socket
    const readBuffer: array<byte>
    var readBufferUsed: nat
    const writeBuffer: array<byte>
    var delimBuffer: array<byte>
    var delimBufferUsed: nat
    var delimResult: Option<nat>   // a pointer into delimBuffer, as an offset
    var delimResultLen: nat

    ghost var received: seq<byte>
    ghost var consumed: seq<seq<byte>>
    ghost var committed: seq<seq<byte>>   // messages whose end_write returned ENONE
    ghost var unfinished: seq<byte>       // what a failed end_write left behind them on the wire

    function Offset(): nat
      reads this
    {
      if delimResult.Some? then delimResult.value else 0
    }

    /** The bytes that are buffered and not consumed. */
    function Buffered(): seq<byte>
      requires Offset() + delimBufferUsed <= delimBuffer.Length
      reads this, delimBuffer
    {
      delimBuffer[Offset()..Offset() + delimBufferUsed]
    }

    /** The read buffer is empty and the buffered bytes lie inside the working buffer. */
    predicate Layout()
      reads this
    {
      && readBufferUsed == 0 && readBuffer.Length > 0
      && delimBuffer.Length > 0 && delimBuffer != readBuffer && delimBuffer != writeBuffer && readBuffer != writeBuffer
      && Offset() + delimBufferUsed <= delimBuffer.Length
    }

    /** Between calls: a non-null result is the complete frame at the front of the buffered
        bytes, a null one means that they hold no complete frame; consumed frames and
        buffered bytes are the stream; and if every frame fits the initial buffer, the
        working buffer has doubled at most once. */
    ghost predicate Valid()
      reads this, delimBuffer
    {
      && Layout() && Stable(delim)
      && delimResultLen == FrameLen(delim, Buffered())
      && (delimResult.Some? <==> delimResultLen > 0)
      && Splits(delim, received, consumed, Buffered())
      && GrownOnce(delim, readBuffer.Length, delimBuffer.Length)
    }

    /** The writing side, with messages of m bytes: on the wire are the committed messages, in
        order, and then at most a part of one. */
    ghost predicate Wrote(m: nat)
      reads this, sock
    {
      && sock.outgoing == Concat(committed) + unfinished && |unfinished| < m
      && forall i :: 0 <= i < |committed| ==> |committed[i]| == m
    }

    constructor (delim: Delimiter, sock: Socket, size: nat)
      requires Stable(delim) && size > 0
      ensures Valid() && this.delim == delim && this.sock == sock
      ensures received == [] && consumed == [] && committed == [] && unfinished == [] && delimBuffer.Length == size
      ensures sock.outgoing == [] ==> forall m: nat :: m > 0 ==> Wrote(m)
      ensures fresh(delimBuffer) && fresh(readBuffer) && fresh(writeBuffer)
    {
      this.delim, this.sock := delim, sock;
      readBuffer, writeBuffer, delimBuffer := new byte[size], new byte[size], new byte[size];
      readBufferUsed, delimBufferUsed, delimResult, delimResultLen := 0, 0, None, 0;
      received, consumed, committed, unfinished := [], [], [], [];
    }

    /** The inner read. With bytes in the read buffer it returns ENONE and leaves its outputs
        unset; Valid() shows that this never happens. */
    method BegRead() returns (code: Code, len: Option<nat>)
      modifies this`readBufferUsed, readBuffer, sock`incoming, sock`readEvents
      ensures old(readBufferUsed) > 0 ==>
                code == ENone && len == None && sock.incoming == old(sock.incoming) && sock.readEvents == old(sock.readEvents)
      ensures old(readBufferUsed) == 0 ==>
                && code == CodeOf(Meet(old(sock.readEvents), old(sock.incoming), readBuffer.Length))
                && sock.readEvents == After(old(sock.readEvents))
                && (code == EFin <==> old(sock.readEvents) != [] && old(sock.readEvents)[0] == Broken)
                && (code == EAgain <==> code != EFin && len.None?) && (code == ENone <==> len.Some?)
                && (code == ENone ==> len.value == Meet(old(sock.readEvents), old(sock.incoming), readBuffer.Length).n)
                && (code != ENone ==> readBufferUsed == 0 && sock.incoming == old(sock.incoming))
                && (code == ENone ==>
                      && 0 < len.value <= readBuffer.Length && readBufferUsed == len.value <= |old(sock.incoming)|
                      && readBuffer[..len.value] == old(sock.incoming)[..len.value]
                      && sock.incoming == old(sock.incoming)[len.value..])
    {
      if readBufferUsed > 0 {
        return ENone, None;
      }
      var result := sock.Read(readBuffer);
      if result < 0 {
        return EAgain, None;
      }
      if result == 0 {
        return EFin, None;
      }
      readBufferUsed := result;
      return ENone, Some(readBufferUsed);
    }

    method EndRead()
      modifies this`readBufferUsed
      ensures readBufferUsed == 0
    {
      readBufferUsed := 0;
    }

    /** Doubles the working buffer until `len` more bytes fit; the bytes in it stay. */
    method Grow(len: nat)
      requires delimResult.None? && 0 < delimBuffer.Length && delimBufferUsed <= delimBuffer.Length
      modifies this`delimBuffer
      ensures delimBuffer == old(delimBuffer) || fresh(delimBuffer)
      ensures delimBuffer.Length == Fitted(old(delimBuffer.Length), delimBufferUsed + len)
      ensures delimBuffer[..delimBufferUsed] == old(delimBuffer[..delimBufferUsed])
    {
      while len > delimBuffer.Length - delimBufferUsed
        invariant delimBuffer == old(delimBuffer) || fresh(delimBuffer)
        invariant 0 < delimBuffer.Length && delimBufferUsed <= delimBuffer.Length
        invariant delimBuffer[..delimBufferUsed] == old(delimBuffer[..delimBufferUsed])
        invariant Fitted(delimBuffer.Length, delimBufferUsed + len) == Fitted(old(delimBuffer.Length), delimBufferUsed + len)
        decreases delimBufferUsed + len - delimBuffer.Length
      {
        var bigger := new byte[delimBuffer.Length * 2];
        forall i | 0 <= i < delimBuffer.Length {
          bigger[i] := delimBuffer[i];
        }
        assert bigger[..delimBufferUsed] == delimBuffer[..delimBufferUsed];
        delimBuffer := bigger;
      }
    }

    /** Appends the read buffer to the working buffer and empties it. */
    method Append(len: nat)
      requires delimResult.None? && 0 < delimBuffer.Length && delimBufferUsed <= delimBuffer.Length
      requires len <= readBuffer.Length && delimBuffer != readBuffer
      modifies this`readBufferUsed, this`delimBuffer, this`delimBufferUsed, delimBuffer
      ensures delimBuffer == old(delimBuffer) || fresh(delimBuffer)
      ensures readBufferUsed == 0 && delimBufferUsed == old(delimBufferUsed) + len <= delimBuffer.Length
      ensures delimBuffer[..delimBufferUsed] == old(delimBuffer[..delimBufferUsed]) + readBuffer[..len]
      ensures var size, need := old(delimBuffer.Length), old(delimBufferUsed) + len;
              && (need <= size ==> delimBuffer.Length == size)
              && (size < need <= 2 * size ==> delimBuffer.Length == 2 * size)
    {
      Grow(len);
      Memcpy(delimBuffer, delimBufferUsed, readBuffer, len);
      assert delimBuffer[..delimBufferUsed + len]
          == delimBuffer[..delimBufferUsed] + delimBuffer[delimBufferUsed..delimBufferUsed + len];
      delimBufferUsed := delimBufferUsed + len;
      EndRead();
    }

    /** FRAMING. Hands out the next frame of the received stream, as an offset and a length
        into the working buffer. Calling it again before conn_end_delimit changes nothing.
        Otherwise it reads once; EFIN means that this read has met the end of the stream, EAGAIN
        that no further frame has been received. */
    method BegDelimit() returns (code: Code, data: Option<(nat, nat)>)
      requires Valid()
      modifies this`readBufferUsed, this`delimBuffer, this`delimBufferUsed, this`delimResult, this`delimResultLen
      modifies this`received, readBuffer, delimBuffer, sock`incoming, sock`readEvents
      ensures Valid() && consumed == old(consumed)
      ensures delimBuffer == old(delimBuffer) || fresh(delimBuffer)
      ensures received + sock.incoming == old(received) + old(sock.incoming) && old(received) <= received
      ensures code == ENone || code == EAgain || code == EFin
      ensures code == ENone <==> data.Some?
      ensures code == ENone <==> |Frames(delim, received)| > |consumed|
      ensures code == ENone ==>
                && data.value.0 + data.value.1 <= delimBuffer.Length
                && delimBuffer[data.value.0..data.value.0 + data.value.1] == Frames(delim, received)[|consumed|]
      ensures old(delimResult.Some?) ==>
                && code == ENone && received == old(received) && delimBuffer == old(delimBuffer)
                && sock.readEvents == old(sock.readEvents)
                && data == Some((delimResult.value, delimResultLen))
                && delimResult == old(delimResult) && delimResultLen == old(delimResultLen)
      ensures old(delimResult.None?) ==>
                var m := Meet(old(sock.readEvents), old(sock.incoming), readBuffer.Length);
                && received == old(received) + Met(m, old(sock.incoming)) && sock.readEvents == After(old(sock.readEvents))
                && (code == EFin <==> m == EndOfStream)
    {
      if delimResult.Some? && delimResultLen > 0 {
        HandedOut();
        return ENone, Some((delimResult.value, delimResultLen));
      }
      SearchAgain();
      code, data := Advance();
      HandedOut();
    }

    /** The rest of beg_delimit: one read, and a search in what is then buffered. */
    method Advance() returns (code: Code, data: Option<(nat, nat)>)
      requires Valid() && delimResult.None?
      modifies this`readBufferUsed, this`delimBuffer, this`delimBufferUsed, this`delimResult, this`delimResultLen
      modifies this`received, readBuffer, delimBuffer, sock`incoming, sock`readEvents
      ensures Valid() && (delimBuffer == old(delimBuffer) || fresh(delimBuffer))
      ensures received + sock.incoming == old(received) + old(sock.incoming) && old(received) <= received
      ensures var m := Meet(old(sock.readEvents), old(sock.incoming), readBuffer.Length);
              && received == old(received) + Met(m, old(sock.incoming))
              && (code == EFin <==> m == EndOfStream) && (code == ENone || code == EAgain || code == EFin)
      ensures sock.readEvents == After(old(sock.readEvents))
      ensures code == ENone <==> delimResult.Some?
      ensures data == if code == ENone then Some((Offset(), delimResultLen)) else None
    {
      code := Refill();
      if code == ENone {
        data := Inspect();
        code := if data.Some? then ENone else EAgain;
      } else {
        data := None;
      }
    }

    /** The search at the start of beg_delimit, which never finds a frame. */
    method SearchAgain()
      requires Layout() && delimResult.None? && FrameLen(delim, Buffered()) == 0
    {
      if delimBufferUsed > 0 {
        var size := delim(delimBuffer[..delimBufferUsed]);
        assert delimBuffer[..delimBufferUsed] == Buffered();
        if size > 0 && size <= delimBufferUsed {
          // A null result means that no frame is buffered.
          assert false;
        }
      }
    }

    /** A non-null result is the next frame of the stream, a null one means there is none. */
    lemma HandedOut()
      requires Valid()
      ensures delimResult.Some? <==> |consumed| < |Frames(delim, received)|
      ensures delimResult.Some? ==>
                && Offset() + delimResultLen <= delimBuffer.Length
                && delimBuffer[Offset()..Offset() + delimResultLen] == Frames(delim, received)[|consumed|]
    {
      NextFrame(delim, received, consumed, Buffered());
      if delimResult.Some? {
        assert delimBuffer[Offset()..Offset() + delimResultLen] == Buffered()[..delimResultLen];
      }
    }

    /** The part of beg_delimit that reads: one chunk goes from the socket to the end of the
        working buffer. */
    method Refill() returns (code: Code)
      requires Valid() && delimResult.None?
      modifies this`readBufferUsed, this`delimBuffer, this`delimBufferUsed, this`received
      modifies readBuffer, delimBuffer, sock`incoming, sock`readEvents
      ensures Layout() && delimResult.None? && (delimBuffer == old(delimBuffer) || fresh(delimBuffer))
      ensures var m := Meet(old(sock.readEvents), old(sock.incoming), readBuffer.Length);
              code == CodeOf(m) && received == old(received) + Met(m, old(sock.incoming))
      ensures sock.readEvents == After(old(sock.readEvents))
      ensures code != ENone ==> received == old(received) && sock.incoming == old(sock.incoming) && Valid()
      ensures old(received) <= received && received + sock.incoming == old(received) + old(sock.incoming)
      ensures Splits(delim, received, consumed, Buffered()) && GrownOnce(delim, readBuffer.Length, delimBuffer.Length)
    {
      ghost var front, wire := Buffered(), sock.incoming;
      var result, len := BegRead();
      assert Buffered() == front;
      if result != ENone {
        return result;
      }
      ChunkMoves(received, wire, len.value);
      TakeIn(len.value);
      return ENone;
    }

    /** The bytes in the read buffer are received: they go to the end of the working buffer. */
    method TakeIn(len: nat)
      requires delimResult.None? && delimBuffer.Length > 0 && delimBufferUsed <= delimBuffer.Length && len <= readBuffer.Length
      requires readBuffer.Length > 0 && delimBuffer != readBuffer && delimBuffer != writeBuffer && readBuffer != writeBuffer
      requires Stable(delim) && FrameLen(delim, Buffered()) == 0 && Splits(delim, received, consumed, Buffered())
      requires GrownOnce(delim, readBuffer.Length, delimBuffer.Length)
      modifies this`readBufferUsed, this`delimBuffer, this`delimBufferUsed, this`received, delimBuffer
      ensures Layout() && (delimBuffer == old(delimBuffer) || fresh(delimBuffer))
      ensures received == old(received) + readBuffer[..len]
      ensures Splits(delim, received, consumed, Buffered()) && GrownOnce(delim, readBuffer.Length, delimBuffer.Length)
    {
      ghost var front, chunk := Buffered(), readBuffer[..len];
      ChunkArrives(delim, received, consumed, front, chunk, readBuffer.Length, delimBuffer.Length);
      Append(len);
      received := received + chunk;
      assert Buffered() == front + chunk;
    }

    /** The part of beg_delimit that looks for a frame at the front of the working buffer. */
    method Inspect() returns (data: Option<(nat, nat)>)
      requires Layout() && delimResult.None? && delimResultLen == 0
      modifies this`delimResult, this`delimResultLen
      ensures Layout() && Offset() == 0 && Buffered() == old(Buffered())
      ensures delimResultLen == FrameLen(delim, Buffered())
      ensures data == if delimResultLen > 0 then Some((0, delimResultLen)) else None
      ensures delimResult == if delimResultLen > 0 then Some(0) else None
    {
      var size := delim(delimBuffer[..delimBufferUsed]);
      if size > 0 && size <= delimBufferUsed {
        delimResult := Some(0);
        delimResultLen := size;
        return Some((0, size));
      }
      return None;
    }

    /** Releases the frame handed out last, if there is one, and looks for another one right
        behind it; only if there is none are the remaining bytes moved to the front. */
    method EndDelimit()
      requires Valid()
      modifies this`delimBufferUsed, this`delimResult, this`delimResultLen, this`consumed, delimBuffer
      ensures Valid() && received == old(received) && delimBuffer == old(delimBuffer)
      ensures consumed == if old(delimResult.Some?)
                          then old(consumed) + [Frames(delim, received)[|old(consumed)|]]
                          else old(consumed)
      ensures old(delimResult.None?) ==> delimBuffer[..] == old(delimBuffer[..])
      ensures old(delimResult.Some?) ==>
                && delimBufferUsed == old(delimBufferUsed - delimResultLen)
                && Released(old(delimBuffer[..]), delimBuffer[..], old(delimResult.value + delimResultLen), delimBufferUsed,
                            delimResult.Some?)
    {
      if delimResult.Some? {
        NextIsFront();
        ReleaseFrame(Buffered()[..delimResultLen]);
      }
    }

    /** The result is the next frame of the stream. */
    lemma NextIsFront()
      requires Valid() && delimResult.Some?
      ensures delimResultLen <= delimBufferUsed && |consumed| < |Frames(delim, received)|
      ensures Frames(delim, received)[|consumed|] == Buffered()[..delimResultLen]
    {
      NextFrame(delim, received, consumed, Buffered());
    }

    method ReleaseFrame(ghost frame: seq<byte>)
      requires Valid() && delimResult.Some? && delimResultLen <= delimBufferUsed && frame == Buffered()[..delimResultLen]
      modifies this`delimBufferUsed, this`delimResult, this`delimResultLen, this`consumed, delimBuffer
      ensures Valid() && received == old(received) && delimBuffer == old(delimBuffer)
      ensures consumed == old(consumed) + [frame]
      ensures delimBufferUsed == old(delimBufferUsed - delimResultLen)
      ensures Released(old(delimBuffer[..]), delimBuffer[..], old(delimResult.value + delimResultLen), delimBufferUsed, delimResult.Some?)
    {
      var next := Release(frame);
      LookBehind(next);
    }

    lemma LookedBehind(left: seq<byte>)
      requires Layout() && Stable(delim) && Buffered() == left && delimResultLen == FrameLen(delim, left)
      requires delimResult.Some? <==> delimResultLen > 0
      requires Splits(delim, received, consumed, left) && GrownOnce(delim, readBuffer.Length, delimBuffer.Length)
      ensures Valid()
    {
    }

    /** The counting part of end_delimit: the bytes behind the result are what is left. */
    method Release(ghost frame: seq<byte>) returns (next: nat)
      requires Valid() && delimResult.Some? && delimResultLen <= delimBufferUsed && frame == Buffered()[..delimResultLen]
      modifies this`delimBufferUsed, this`consumed
      ensures next == old(delimResult.value + delimResultLen) && delimBufferUsed == old(delimBufferUsed - delimResultLen)
      ensures next + delimBufferUsed <= delimBuffer.Length
      ensures consumed == old(consumed) + [frame]
      ensures Splits(delim, received, consumed, delimBuffer[next..next + delimBufferUsed])
    {
      FrontIsConsumed(frame);
      next := delimResult.value + delimResultLen;
      if delimResultLen > delimBufferUsed {
        // "Case 2" of the source: the result is a frame of the buffered bytes, so it is
        // never longer than they are.
        assert false;
      }
      consumed := consumed + [frame];
      delimBufferUsed := delimBufferUsed - delimResultLen;
    }

    lemma FrontIsConsumed(frame: seq<byte>)
      requires Valid() && delimResult.Some? && delimResultLen <= delimBufferUsed && frame == Buffered()[..delimResultLen]
      ensures var next, left := delimResult.value + delimResultLen, delimBufferUsed - delimResultLen;
              Splits(delim, received, consumed + [frame], delimBuffer[next..next + left])
    {
      SplitsOn(delim, received, consumed, Buffered());
      BytesBehind();
    }

    lemma BytesBehind()
      requires delimResult.Some? && Layout() && delimResultLen <= delimBufferUsed
      ensures var next, left := delimResult.value + delimResultLen, delimBufferUsed - delimResultLen;
              delimBuffer[next..next + left] == Buffered()[delimResultLen..]
    {
    }

    /** The rest of end_delimit: the bytes from `next` on are what is left, maybe none. */
    method LookBehind(next: nat)
      requires readBufferUsed == 0 && readBuffer.Length > 0
      requires delimBuffer.Length > 0 && delimBuffer != readBuffer && delimBuffer != writeBuffer && readBuffer != writeBuffer
      requires Stable(delim) && next + delimBufferUsed <= delimBuffer.Length
      requires Splits(delim, received, consumed, delimBuffer[next..next + delimBufferUsed])
      requires GrownOnce(delim, readBuffer.Length, delimBuffer.Length)
      modifies this`delimResult, this`delimResultLen, delimBuffer
      ensures Valid() && Buffered() == old(delimBuffer[next..next + delimBufferUsed])
      ensures delimResult == if delimResultLen > 0 then Some(next) else None
      ensures Released(old(delimBuffer[..]), delimBuffer[..], next, delimBufferUsed, delimResult.Some?)
    {
      ghost var left := delimBuffer[next..next + delimBufferUsed];
      FindOrMove(next);
      LookedBehind(left);
    }

    /** Finds the frame at the front of what is left, or moves it to the front of the buffer. */
    method FindOrMove(next: nat)
      requires readBufferUsed == 0 && readBuffer.Length > 0
      requires delimBuffer.Length > 0 && delimBuffer != readBuffer && delimBuffer != writeBuffer && readBuffer != writeBuffer
      requires Stable(delim) && next + delimBufferUsed <= delimBuffer.Length
      modifies this`delimResult, this`delimResultLen, delimBuffer
      ensures Layout() && Buffered() == old(delimBuffer[next..next + delimBufferUsed])
      ensures delimResultLen == FrameLen(delim, Buffered())
      ensures delimResult == if delimResultLen > 0 then Some(next) else None
      ensures Released(old(delimBuffer[..]), delimBuffer[..], next, delimBufferUsed, delimResult.Some?)
    {
      if delimBufferUsed == 0 {
        delimResultLen := 0;
        delimResult := None;
        return;
      }
      var size := FrameAt(next);
      if size > 0 {
        delimResult := Some(next);
        delimResultLen := size;
        return;
      }
      MoveDown(next);
      delimResultLen := 0;
      delimResult := None;
    }

    /** The size of the frame at the front of what is left, or 0. */
    method FrameAt(next: nat) returns (size: nat)
      requires Stable(delim) && next + delimBufferUsed <= delimBuffer.Length
      ensures size == FrameLen(delim, delimBuffer[next..next + delimBufferUsed])
    {
      var found := delim(delimBuffer[next..next + delimBufferUsed]);
      size := if found != 0 && found <= delimBufferUsed then found else 0;
    }

    /** memmove of what is left to the front of the working buffer. */
    method MoveDown(next: nat)
      requires next + delimBufferUsed <= delimBuffer.Length
      modifies delimBuffer
      ensures delimBuffer[..delimBufferUsed] == old(delimBuffer[next..next + delimBufferUsed])
      ensures Released(old(delimBuffer[..]), delimBuffer[..], next, delimBufferUsed, false)
    {
      var used := delimBufferUsed;
      forall i | 0 <= i < used {
        delimBuffer[i] := delimBuffer[next + i];
      }
    }

    /** Writes the first `len` bytes of the write buffer, whatever the pattern of partial
        writes. It returns EFIN exactly if the connection breaks before they are all taken, and
        then only a front part of them is on the wire. A write that returns ENONE commits its
        message, unless an earlier one has failed, after which callers exit. */
    method EndWrite(len: nat) returns (code: Code)
      requires len <= writeBuffer.Length
      modifies sock`outgoing, sock`writeEvents, this`committed, this`unfinished
      ensures code == ENone || code == EFin
      ensures code == EFin <==> exists k: nat :: BreaksOff(old(sock.writeEvents), len, k)
      ensures code == ENone ==> sock.outgoing == old(sock.outgoing) + writeBuffer[..len]
      ensures forall k: nat :: BreaksOff(old(sock.writeEvents), len, k) ==>
                sock.outgoing == old(sock.outgoing) + writeBuffer[..Capacity(old(sock.writeEvents)[..k])]
      ensures old(unfinished) == [] ==>
                committed == if code == ENone then old(committed) + [writeBuffer[..len]] else old(committed)
      ensures old(unfinished) == [] && code == ENone ==> unfinished == []
      ensures old(Wrote(len)) && old(unfinished) == [] ==> Wrote(len)
    {
      ghost var written;
      code, written := WriteOut(len);
      if code == ENone {
        ghost var message := writeBuffer[..len];
        ConcatAppend(committed, [message]);
        assert Concat([message]) == message;
        committed := if unfinished == [] then committed + [message] else committed;
      } else {
        unfinished := if unfinished == [] then writeBuffer[..written] else unfinished;
      }
    }

    /** The write loop of end_write; `taken` is how many bytes are on the wire when it ends. */
    method WriteOut(len: nat) returns (code: Code, ghost taken: nat)
      requires len <= writeBuffer.Length
      modifies sock`outgoing, sock`writeEvents
      ensures taken <= len && sock.outgoing == old(sock.outgoing) + writeBuffer[..taken]
      ensures code == if taken == len then ENone else EFin
      ensures code == EFin <==> exists k: nat :: BreaksOff(old(sock.writeEvents), len, k)
      ensures forall k: nat :: BreaksOff(old(sock.writeEvents), len, k) ==> taken == Capacity(old(sock.writeEvents)[..k])
    {
      ghost var events, j := sock.writeEvents, 0;
      var data, left := 0, len;
      while left > 0
        invariant data <= len && data + left == len
        invariant sock.outgoing == old(sock.outgoing) + writeBuffer[..data]
        invariant TakenBy(events, len, j, data) && sock.writeEvents == events[j..]
        decreases |sock.writeEvents|, left
      {
        var written, again := WriteSome(data, left, old(sock.outgoing));
        OneMoreTaken(events, len, j, data);
        if written < 0 {
          if again {
            j := j + 1;
            continue;
          }
          BrokenOff(events, len, j, data);
          return EFin, data;
        }
        data := data + written;
        left := left - written;
        j := if j < |events| then j + 1 else j;
      }
      AllTaken(events, len, j);
      return ENone, data;
    }

    /** One write of the `left` bytes at offset `data`. */
    method WriteSome(data: nat, left: nat, ghost before: seq<byte>) returns (written: int, again: bool)
      requires data + left <= writeBuffer.Length && sock.outgoing == before + writeBuffer[..data]
      modifies sock`outgoing, sock`writeEvents
      ensures -1 <= written <= left && sock.writeEvents == After(old(sock.writeEvents))
      ensures written < 0 ==> old(sock.writeEvents) != [] && old(sock.writeEvents)[0] == if again then Blocked else Broken
      ensures written >= 0 && old(sock.writeEvents) == [] ==> written == left
      ensures written >= 0 && old(sock.writeEvents) != [] ==>
                old(sock.writeEvents)[0].UpTo? && written == Min(old(sock.writeEvents)[0].k, left)
      ensures sock.outgoing == before + writeBuffer[..data + if written < 0 then 0 else written]
    {
      written, again := sock.Write(writeBuffer[data..data + left]);
      if written >= 0 {
        assert writeBuffer[..data] + writeBuffer[data..data + left][..written] == writeBuffer[..data + written];
      }
    }
  }

  /** WRITER TO READER, whatever the partial writes, the chunks read and the calls repeated:
      as long as the reader has received a front part of what the writer put on the wire, the
      frames it consumed are the first messages committed, in order, and the one it hands out
      is the next; once all committed bytes have arrived and it has none left to hand out, it
      has consumed them all. */
  lemma ReaderGetsCommitted(m: nat, writer: Conn, reader: Conn)
    requires m > 0 && writer.Wrote(m)
    requires reader.Valid() && reader.delim == Delimit(m) && reader.received <= writer.sock.outgoing
    ensures reader.consumed <= writer.committed
    ensures reader.delimResult.Some? ==>
              && |reader.consumed| < |writer.committed| && reader.delimResultLen <= |reader.Buffered()|
              && reader.Buffered()[..reader.delimResultLen] == writer.committed[|reader.consumed|]
    ensures |reader.received| >= |Concat(writer.committed)| && reader.delimResult.None? ==> reader.consumed == writer.committed
  {
    RoundTrip(m, writer.committed, writer.unfinished, reader.received);
    ConsumedAreSent(m, writer.committed, writer.unfinished, reader.received, reader.consumed, reader.Buffered());
    NextFrame(reader.delim, reader.received, reader.consumed, reader.Buffered());
  }

  /** A chunk arrives behind bytes that hold no complete frame. */
  lemma SplitsMore(d: Delimiter, received: seq<byte>, consumed: seq<seq<byte>>, front: seq<byte>, chunk: seq<byte>)
    requires Stable(d) && FrameLen(d, front) == 0 && Splits(d, received, consumed, front)
    ensures Splits(d, received + chunk, consumed, front + chunk)
  {
    FramesAppend(d, received, chunk);
    FramesAndRest(d, received);
    assert Frames(d, received) == consumed;
    assert Rest(d, received) == received[|Concat(consumed)|..] == front;
    assert received + chunk == Concat(consumed) + (front + chunk);
  }

  /** What a chunk keeps: the stream is still cut in the right places, and the buffer needs at
      most one doubling for it. */
  lemma ChunkArrives(d: Delimiter, received: seq<byte>, consumed: seq<seq<byte>>, front: seq<byte>, chunk: seq<byte>,
                     initial: nat, size: nat)
    requires Stable(d) && FrameLen(d, front) == 0 && Splits(d, received, consumed, front)
    requires GrownOnce(d, initial, size) && |chunk| <= initial
    ensures Splits(d, received + chunk, consumed, front + chunk)
    ensures FramesFit(d, initial) ==> |front| + |chunk| <= 2 * initial && (size == initial || size == 2 * initial)
  {
    SplitsMore(d, received, consumed, front, chunk);
    GrowsOnce(d, initial, size, front, |chunk|);
  }

  /** A chunk that fits the read buffer needs at most one doubling, ever. */
  lemma GrowsOnce(d: Delimiter, initial: nat, size: nat, front: seq<byte>, len: nat)
    requires GrownOnce(d, initial, size) && FrameLen(d, front) == 0 && len <= initial
    ensures FramesFit(d, initial) ==> |front| + len <= 2 * initial && (size == initial || size == 2 * initial)
  {
  }

  /** The front frame of the buffered bytes is consumed. */
  lemma SplitsOn(d: Delimiter, received: seq<byte>, consumed: seq<seq<byte>>, buffered: seq<byte>)
    requires Splits(d, received, consumed, buffered) && FrameLen(d, buffered) > 0
    ensures var n := FrameLen(d, buffered);
            && Splits(d, received, consumed + [buffered[..n]], buffered[n..])
            && |consumed| < |Frames(d, received)| && Frames(d, received)[|consumed|] == buffered[..n]
  {
    var n := FrameLen(d, buffered);
    ConcatAppend(consumed, [buffered[..n]]);
    assert Concat([buffered[..n]]) == buffered[..n];
    assert buffered == buffered[..n] + buffered[n..];
    assert consumed + Frames(d, buffered) == (consumed + [buffered[..n]]) + Frames(d, buffered[n..]);
  }

  /** What is handed out next is the next frame of the stream; there is none if the buffered
      bytes hold none. */
  lemma NextFrame(d: Delimiter, received: seq<byte>, consumed: seq<seq<byte>>, buffered: seq<byte>)
    requires Splits(d, received, consumed, buffered)
    ensures FrameLen(d, buffered) > 0 <==> |consumed| < |Frames(d, received)|
    ensures FrameLen(d, buffered) > 0 ==> Frames(d, received)[|consumed|] == buffered[..FrameLen(d, buffered)]
  {
    if FrameLen(d, buffered) > 0 {
      SplitsOn(d, received, consumed, buffered);
    }
  }

  /** The protocol's delimiter fits: messages no larger than the initial buffer let the
      working buffer double at most once in the life of the connection. */
  lemma MessagesFit(msgSize: nat, size: nat)
    requires 0 < msgSize <= size
    ensures Stable(Delimit(msgSize)) && FramesFit(Delimit(msgSize), size)
  {
    DelimitIsStable(msgSize);
  }

  /** MESSAGES IN, MESSAGES OUT. The frames that a reader has consumed are the first
      messages the peer committed, in order; once all of them have arrived and no complete
      frame is left in the buffer, they are all of them. */
  lemma ConsumedAreSent(m: nat, msgs: seq<seq<byte>>, tail: seq<byte>, received: seq<byte>,
                        consumed: seq<seq<byte>>, buffered: seq<byte>)
    requires m > 0 && |tail| < m && forall i :: 0 <= i < |msgs| ==> |msgs[i]| == m
    requires Splits(Delimit(m), received, consumed, buffered) && received <= Concat(msgs) + tail
    ensures consumed <= msgs
    ensures |received| >= |Concat(msgs)| && FrameLen(Delimit(m), buffered) == 0 ==> consumed == msgs
  {
    RoundTrip(m, msgs, tail, received);
  }
}
