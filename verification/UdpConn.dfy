/** The datagram connection under reliable UDP: one read slot, one write buffer. */
module UdpConn {
  import opened Messages
  import opened Transport

  datatype WriteOutcome = Taken | Again | Refused

  /** Whether a send loop over these outcomes gets its datagram out. A kernel that has
      nothing more to report takes the datagram. */
  function SendOk(takes: seq<WriteOutcome>): bool {
    if takes == [] then true
    else match takes[0]
      case Taken => true
      case Refused => false
      case Again => SendOk(takes[1..])
  }

  function AfterSend(takes: seq<WriteOutcome>): seq<WriteOutcome> {
    if takes == [] then []
    else if takes[0] == Again then AfterSend(takes[1..])
    else takes[1..]
  }

  /** The first outcome that is not "would block" decides; if there is none the datagram is
      taken. */
  lemma {:induction false} SendMeaning(takes: seq<WriteOutcome>) returns (k: nat)
    ensures k <= |takes| && (forall i :: 0 <= i < k ==> takes[i] == Again) && (k < |takes| ==> takes[k] != Again)
    ensures SendOk(takes) <==> k == |takes| || takes[k] == Taken
    ensures AfterSend(takes) == if k < |takes| then takes[k + 1..] else []
    decreases |takes|
  {
    k := 0;
    if takes != [] && takes[0] == Again {
      var k' := SendMeaning(takes[1..]);
      k := k' + 1;
      assert forall i :: 0 < i < |takes| ==> takes[i] == takes[1..][i - 1];
    }
  }

  function NextArrival(arrivals: seq<Arrival>): Arrival {
    if arrivals == [] then WouldBlock else arrivals[0]
  }

  function AfterRead(arrivals: seq<Arrival>): seq<Arrival> {
    if arrivals == [] then [] else arrivals[1..]
  }

  /** The kernel's side: what successive reads will find, what successive writes will
      report, and every datagram that went out. */
  class Socket {
    var arrivals: seq<Arrival>
    var takes: seq<WriteOutcome>
    var sent: seq<Packet>

    constructor (arrivals: seq<Arrival>, takes: seq<WriteOutcome>)
      ensures this.arrivals == arrivals && this.takes == takes && sent == []
    {
      this.arrivals, this.takes, sent := arrivals, takes, [];
    }

    method Read() returns (a: Arrival)
      modifies this`arrivals
      ensures a == NextArrival(old(arrivals)) && arrivals == AfterRead(old(arrivals))
    {
      a := NextArrival(arrivals);
      arrivals := AfterRead(arrivals);
    }

    method Write(p: Packet) returns (o: WriteOutcome)
      modifies this`takes, this`sent
      ensures o == if old(takes) == [] then Taken else old(takes)[0]
      ensures takes == if old(takes) == [] then [] else old(takes)[1..]
      ensures sent == if o == Taken then old(sent) + [p] else old(sent)
    {
      o := Taken;
      if takes != [] {
        o := takes[0];
        takes := takes[1..];
      }
      if o == Taken {
        sent := sent + [p];
      }
    }
  }

  class Conn {
    const sock: Socket
    var readBuffer: Packet
    var readBufferUsed: bool   // read_buffer_used > 0
    var writeBuffer: Packet
    var isConnected: bool

    constructor (sock: Socket, isConnected: bool)
      ensures this.sock == sock && !readBufferUsed && writeBuffer == BLANK && this.isConnected == isConnected
    {
      this.sock, this.isConnected := sock, isConnected;
      readBuffer, readBufferUsed, writeBuffer := BLANK, false, BLANK;
    }

    /** With a datagram in the slot this returns ENONE and leaves its outputs unset. The first
        datagram to arrive settles who the peer is. */
    method BegRead() returns (code: Code, data: Option<Packet>)
      modifies this`readBuffer, this`readBufferUsed, this`isConnected, sock`arrivals
      ensures old(readBufferUsed) ==>
                code == ENone && data == None && readBufferUsed && readBuffer == old(readBuffer)
                && sock.arrivals == old(sock.arrivals)
      ensures !old(readBufferUsed) ==>
                && sock.arrivals == AfterRead(old(sock.arrivals))
                && match NextArrival(old(sock.arrivals))
                   case Datagram(p) => code == ENone && data == Some(p) && readBufferUsed && readBuffer == p
                   case WouldBlock => code == EAgain && data == None && !readBufferUsed && readBuffer == old(readBuffer)
                   case Closed => code == EFin && data == None && !readBufferUsed && readBuffer == old(readBuffer)
      ensures isConnected <==> old(isConnected) || data.Some?
    {
      if readBufferUsed {
        return ENone, None;
      }
      var a := sock.Read();
      match a
      case WouldBlock => return EAgain, None;
      case Closed => return EFin, None;
      case Datagram(p) =>
        isConnected := true;
        readBuffer, readBufferUsed := p, true;
        return ENone, Some(p);
    }

    method EndRead()
      modifies this`readBufferUsed
      ensures !readBufferUsed
    {
      readBufferUsed := false;
    }

    /** Keeps trying while the write would block. */
    method EndWrite() returns (code: Code)
      modifies sock`takes, sock`sent
      ensures sock.takes == AfterSend(old(sock.takes))
      ensures code == if SendOk(old(sock.takes)) then ENone else EFin
      ensures sock.sent == if SendOk(old(sock.takes)) then old(sock.sent) + [writeBuffer] else old(sock.sent)
    {
      var pending := true;
      while pending
        invariant pending ==> SendOk(sock.takes) == SendOk(old(sock.takes))
                              && AfterSend(sock.takes) == AfterSend(old(sock.takes)) && sock.sent == old(sock.sent)
        invariant !pending ==> SendOk(old(sock.takes)) && sock.takes == AfterSend(old(sock.takes))
                               && sock.sent == old(sock.sent) + [writeBuffer]
        decreases pending, |sock.takes|
      {
        var o := sock.Write(writeBuffer);
        match o
        case Again =>
        case Refused => return EFin;
        case Taken => pending := false;
      }
      return ENone;
    }
  }
}
