/** The reliable-UDP connection object: the source's methods over the datagram connection,
    each proved to compute the endpoint function of the same name. */
module RudpConn {
  import opened Messages
  import opened Transport
  import E = RudpEndpoint
  import U = UdpConn

  class Conn {
    const base: U.Conn
    const isServer: bool
    var seqNo: int
    var readData: bool         // read_data is non-null; it points at base's read buffer
    var ackOutstanding: bool
    var currentSeq: int
    const rtoTimeout: int
    var tsStart: int           // ts_start_us: when the outstanding write was last transmitted

    /** The two read slots agree: the datagram slot is occupied iff read_data is set. */
    ghost predicate Valid()
      reads this, base
    {
      base.readBufferUsed <==> readData
    }

    function View(): E.End
      reads this, base
    {
      E.End(isServer, seqNo, if readData then Some(base.readBuffer) else None, base.writeBuffer,
            ackOutstanding, currentSeq)
    }

    constructor (base: U.Conn, inClientProcess: bool, rtoTimeout: int)
      requires !base.readBufferUsed && base.writeBuffer == BLANK
      ensures Valid() && this.base == base && View() == E.InitEnd(inClientProcess) && this.rtoTimeout == rtoTimeout
    {
      this.base, isServer, this.rtoTimeout, tsStart := base, inClientProcess, rtoTimeout, 0;
      seqNo := if inClientProcess then 0 else -1;
      readData, ackOutstanding, currentSeq := false, false, 0;
    }

    method BegRead() returns (code: Code, data: Option<Payload>)
      requires Valid()
      modifies this`seqNo, this`readData, base`readBuffer, base`readBufferUsed, base`isConnected, base.sock`arrivals
      ensures Valid()
      ensures E.ReadResult(View(), code, data) == E.BegRead(old(View()), U.NextArrival(old(base.sock.arrivals)))
      ensures base.sock.arrivals == if old(readData) then old(base.sock.arrivals) else U.AfterRead(old(base.sock.arrivals))
    {
      if readData {
        return ENone, Some(base.readBuffer.msg);
      }
      var result, found := base.BegRead();
      if result != ENone {
        base.EndRead();
        return result, None;
      }
      // The datagram slot was free, so its outputs are set.
      var p := found.value;
      if isServer {
        if p.num != seqNo {
          base.EndRead();
          return EAgain, None;
        }
        seqNo := seqNo + 1;
      } else {
        if p.num <= seqNo {
          base.EndRead();
          return EAgain, None;
        }
        seqNo := p.num;
      }
      readData := true;
      return ENone, Some(p.msg);
    }

    method EndRead()
      requires Valid()
      modifies this`readData, base`readBufferUsed
      ensures Valid() && View() == E.EndRead(old(View()))
    {
      base.EndRead();
      readData := false;
    }

    /** Stamps the header of the write buffer; `m` is what the caller then writes into it. */
    method BegWrite(m: Payload)
      requires Valid()
      modifies base`writeBuffer
      ensures Valid() && View() == E.BegWrite(old(View()), m)
    {
      base.writeBuffer := Packet(seqNo, m);
    }

    /** One call that no other thread disturbs. `sentAt`, `now` and `resentAt` are what the clock
        says after a first transmission, at the look at the timer and after a retransmission. */
    method EndWrite(sentAt: int, now: int, resentAt: int) returns (code: Code)
      requires Valid()
      modifies this`seqNo, this`readData, this`ackOutstanding, this`currentSeq, this`tsStart
      modifies base`readBuffer, base`readBufferUsed, base`isConnected, base`writeBuffer
      modifies base.sock`arrivals, base.sock`takes, base.sock`sent
      ensures Valid()
      ensures var takes := old(base.sock.takes);
              var later := if old(ackOutstanding) then takes else U.AfterSend(takes);
              var started := if old(ackOutstanding) then old(tsStart) else sentAt;
              var r := E.EndWrite(old(View()), U.SendOk(takes), U.NextArrival(old(base.sock.arrivals)),
                                  now >= started + rtoTimeout, U.SendOk(later));
              && View() == r.e && code == r.code && base.sock.sent == old(base.sock.sent) + r.sent
              && tsStart == if code == RtoFired then resentAt else if old(ackOutstanding) || r.sent == [] then old(tsStart) else sentAt
    {
      var refused := Transmit(sentAt);
      if refused {
        return EFin;
      }
      code := Check(now, resentAt);
    }

    /** The first part of end_write, up to the recording of current_seq. */
    method Transmit(sentAt: int) returns (refused: bool)
      requires Valid()
      modifies this`ackOutstanding, this`currentSeq, this`tsStart, base.sock`takes, base.sock`sent
      ensures Valid()
      ensures base.sock.takes == if old(ackOutstanding) then old(base.sock.takes) else U.AfterSend(old(base.sock.takes))
      ensures var r := E.Transmit(old(View()), U.SendOk(old(base.sock.takes)));
              && View() == r.e && refused == r.refused && base.sock.sent == old(base.sock.sent) + r.sent
              && tsStart == if r.sent == [] then old(tsStart) else sentAt
    {
      if !ackOutstanding {
        var first := base.EndWrite();
        if first != ENone {
          return true;
        }
        tsStart := sentAt;
        currentSeq := seqNo;
        ackOutstanding := true;
      }
      return false;
    }

    /** The rest of end_write, on the state it finds: on the coordinator's side a worker may
        have moved seqNo since. The timer has run out once rtoTimeout has passed since the last
        transmission; a retransmission starts it again. */
    method Check(now: int, resentAt: int) returns (code: Code)
      requires Valid()
      modifies this`seqNo, this`readData, this`ackOutstanding, this`tsStart
      modifies base`readBuffer, base`readBufferUsed, base`isConnected, base`writeBuffer
      modifies base.sock`arrivals, base.sock`takes, base.sock`sent
      ensures Valid()
      ensures base.sock.arrivals == if isServer && !old(readData) then U.AfterRead(old(base.sock.arrivals)) else old(base.sock.arrivals)
      ensures var r := E.Check(old(View()), U.NextArrival(old(base.sock.arrivals)), now >= old(tsStart) + rtoTimeout,
                               U.SendOk(old(base.sock.takes)));
              && View() == r.e && code == r.code && base.sock.sent == old(base.sock.sent) + r.sent
              && tsStart == if code == RtoFired then resentAt else old(tsStart)
    {
      if isServer {
        var result, _ := BegRead();
        if result == EFin {
          return result;
        }
      }
      if currentSeq != seqNo {
        ackOutstanding := false;
        return ENone;
      }
      if now < tsStart + rtoTimeout {
        return EAgain;
      }
      base.writeBuffer := base.writeBuffer.(msg := E.Bump(isServer, base.writeBuffer.msg));
      var again := base.EndWrite();
      if again == EFin {
        return EFin;
      }
      tsStart := resentAt;
      return RtoFired;
    }
  }
}
