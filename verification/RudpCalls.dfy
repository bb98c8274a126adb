/** The calls of the connection object are sequences of link steps: what RudpConn proves
    about one call and what RudpLink proves about runs are about the same program. */
module RudpCalls {
  import opened Messages
  import opened Transport
  import opened RudpEndpoint
  import opened RudpLink

  function SetOf(s: seq<Packet>): set<Packet> {
    set p | p in s
  }

  /** A read call of the coordinator's side finds a datagram that the network delivers, or none.
      It takes a datagram exactly if nothing is held and the number is the next in order; it
      returns ENONE exactly while something is held, and hands out the last message taken,
      which is the one that the client sent in that place. EFIN is for a closed stream. */
  lemma ServerReadCall(l: Link, a: Arrival)
    requires LinkInv(l) && (a.Datagram? ==> a.p in l.toS)
    ensures var r := BegRead(l.s, a);
            var l2 := if a.Datagram? then LinkStep(l, ServerRead(a.p)) else l;
            var held := l2.s.slot.Some?;
            && r.e == l2.s && held == (l.s.slot.Some? || (a.Datagram? && a.p.num == |l.gotS|))
            && r.code == (if held then ENone else if a == Closed then EFin else EAgain)
            && l2.gotS == (if held && l.s.slot.None? then l.gotS + [a.p.msg] else l.gotS)
            && r.data == (if held then Some(l2.gotS[|l2.gotS| - 1]) else None)
            && (held ==> r.data.value.core == l.sentC[|l2.gotS| - 1].core)
  {
    LinkStepKeeps(l, if a.Datagram? then ServerRead(a.p) else ServerRelease);
  }

  /** The same for the client's side. */
  lemma ClientReadCall(l: Link, a: Arrival)
    requires LinkInv(l) && (a.Datagram? ==> a.p in l.toC)
    ensures var r := BegRead(l.c, a);
            var l2 := if a.Datagram? then LinkStep(l, ClientRead(a.p)) else l;
            var held := l2.c.slot.Some?;
            && r.e == l2.c && held == (l.c.slot.Some? || (a.Datagram? && a.p.num == |l.gotC|))
            && r.code == (if held then ENone else if a == Closed then EFin else EAgain)
            && l2.gotC == (if held && l.c.slot.None? then l.gotC + [a.p.msg] else l.gotC)
            && r.data == (if held then Some(l2.gotC[|l2.gotC| - 1]) else None)
            && (held ==> r.data.value.core == l.sentS[|l2.gotC| - 1].core)
  {
    LinkStepKeeps(l, if a.Datagram? then ClientRead(a.p) else ClientRelease);
  }

  /** The steps inside a client-side end_write whose message has been transmitted. */
  function ClientWait(l: Link, a: Arrival, code: Code): Link {
    var l1 := if a.Datagram? then LinkStep(l, ClientRead(a.p)) else l;
    match code
    case ENone => LinkStep(l1, ClientAck)
    case RtoFired => LinkStep(l1, ClientRetry)
    case _ => l1
  }

  /** The same datagram up to its retransmit counters. */
  predicate Copy(p: Packet, q: Packet) {
    p.num == q.num && p.msg.core == q.msg.core
  }

  /** When an unacknowledged write is transmitted again, `sent` being what the call puts on the
      network for that: exactly once the timer has run out, if the base stream takes it. */
  predicate RetransmitsWhenDue(out: Packet, expired: bool, retry: bool, code: Code, sent: seq<Packet>) {
    && (code == RtoFired <==> expired && retry)
    && (code == EAgain <==> !expired)
    && (code == EFin <==> expired && !retry)
    && (if code == RtoFired then |sent| == 1 && Copy(sent[0], out) else sent == [])
  }

  /** A client-side call of beg_write and end_write, and every further call of end_write: the
      endpoint and the network end up where the steps lead. ENONE is returned exactly when the
      acknowledgement step is possible. A transmission that the base stream refuses ends in
      EFIN with nothing sent; so does a closed connection or a refused retransmission, with the
      first transmission sent. */
  lemma ClientFirstCall(l: Link, m: Payload, first: bool, a: Arrival, expired: bool, retry: bool)
    requires LinkInv(l) && Contract(l, ClientSend(m)) && (a.Datagram? ==> a.p in l.toC)
    ensures var r := EndWrite(BegWrite(l.c, m), first, a, expired, retry);
            if !first then r == WriteResult(BegWrite(l.c, m), EFin, [])
            else
              var l0 := LinkStep(l, ClientSend(m));
              var l2 := ClientWait(l0, a, r.code);
              && r.sent != [] && r.sent[0] == Packet(l.c.seqNo, m)
              && l2.toS == l.toS + SetOf(r.sent) && l2.sentC == l.sentC + [m]
              && (r.code == ENone <==> a != Closed && AckSeen(ClientWait(l0, a, EAgain).c))
              && (r.code != EFin ==> l2.c == r.e)
              && (if a == Closed then r.code == EFin && |r.sent| == 1
                  else r.code == ENone || RetransmitsWhenDue(Packet(l.c.seqNo, m), expired, retry, r.code, r.sent[1..]))
  {
  }

  lemma ClientNextCall(l: Link, a: Arrival, expired: bool, retry: bool)
    requires LinkInv(l) && l.c.outstanding && (a.Datagram? ==> a.p in l.toC)
    ensures var r := EndWrite(l.c, true, a, expired, retry);
            var l2 := ClientWait(l, a, r.code);
            var closed := a == Closed && l.c.slot.None?;
            && l2.toS == l.toS + SetOf(r.sent) && l2.sentC == l.sentC
            && (r.code == ENone <==> !closed && AckSeen(ClientWait(l, a, EAgain).c))
            && (r.code != EFin ==> l2.c == r.e)
            && (if closed then r.code == EFin && r.sent == []
                else r.code == ENone || RetransmitsWhenDue(l.c.outBuf, expired, retry, r.code, r.sent))
            && (r.code == ENone ==> r.sent == [])
  {
  }

  /** The steps inside the coordinator's end_write once current_seq is recorded. */
  function ServerWait(l: Link, code: Code): Link {
    match code
    case ENone => LinkStep(l, ServerAck)
    case RtoFired => LinkStep(l, ServerRetry)
    case _ => l
  }

  /** What the workers do to a link: they take datagrams and release them. */
  function Meanwhile(l: Link, acts: seq<LinkAct>): Option<Link>
    decreases |acts|
  {
    if acts == [] then Some(l)
    else if (acts[0].ServerRead? || acts[0].ServerRelease?) && Possible(l, acts[0])
    then Meanwhile(LinkStep(l, acts[0]), acts[1..])
    else None
  }

  /** Workers move the coordinator's number up and leave the write alone. */
  predicate LeavesWrite(l: Link, l': Link) {
    && l'.stage == l.stage && l'.toC == l.toC && l'.sentS == l.sentS
    && l'.s.outBuf == l.s.outBuf && l'.s.outstanding == l.s.outstanding && l'.s.currentSeq == l.s.currentSeq
    && l.s.seqNo <= l'.s.seqNo && !l'.s.isServer
  }

  lemma WorkerLeavesWrite(l: Link, a: LinkAct)
    requires LinkInv(l) && (a.ServerRead? || a.ServerRelease?) && Possible(l, a)
    ensures LinkInv(LinkStep(l, a)) && LeavesWrite(l, LinkStep(l, a))
  {
    LinkStepKeeps(l, a);
  }

  lemma {:induction false} WorkersLeaveWrite(l: Link, acts: seq<LinkAct>)
    requires LinkInv(l) && Meanwhile(l, acts).Some?
    ensures LinkInv(Meanwhile(l, acts).value) && LeavesWrite(l, Meanwhile(l, acts).value)
    decreases |acts|
  {
    if acts != [] {
      WorkerLeavesWrite(l, acts[0]);
      WorkersLeaveWrite(LinkStep(l, acts[0]), acts[1..]);
    }
  }

  /** What the coordinator's look at the number does, whatever came before. */
  lemma ServerChecks(l: Link, a: Arrival, expired: bool, retry: bool)
    requires l.stage == Waiting && !l.s.isServer
    ensures var r := Check(l.s, a, expired, retry);
            && ServerWait(l, r.code).toC == l.toC + SetOf(r.sent)
            && (r.code == ENone <==> AckSeen(l.s))
            && (r.code != EFin ==> ServerWait(l, r.code).s == r.e)
            && (if r.code == ENone then r.sent == [] else RetransmitsWhenDue(l.s.outBuf, expired, retry, r.code, r.sent))
  {
  }

  /** The first transmission and its recording, whatever the workers do in between. */
  lemma ServerTransmits(l: Link, m: Payload, early: seq<LinkAct>)
    requires LinkInv(l) && Contract(l, ServerBegin(m))
    requires Meanwhile(LinkStep(LinkStep(l, ServerBegin(m)), ServerSend), early).Some?
    ensures var l1 := Meanwhile(LinkStep(LinkStep(l, ServerBegin(m)), ServerSend), early).value;
            var l2 := LinkStep(l1, ServerRecord);
            && Transmit(BegWrite(l.s, m), true).sent == [Packet(l.s.seqNo, m)]
            && LinkInv(l2) && l2.stage == Waiting && l2.s == Record(l1.s)
            && l2.toC == l.toC + {Packet(l.s.seqNo, m)} && l2.sentS == l.sentS + [m]
  {
    var l0 := LinkStep(LinkStep(l, ServerBegin(m)), ServerSend);
    LinkStepKeeps(l, ServerBegin(m));
    LinkStepKeeps(LinkStep(l, ServerBegin(m)), ServerSend);
    WorkersLeaveWrite(l0, early);
    LinkStepKeeps(Meanwhile(l0, early).value, ServerRecord);
  }

  /** A first call on the coordinator's side, whatever the workers do between the transmission
      and the recording (`early`) and between the recording and the look at the number
      (`late`). It returns ENONE exactly if a worker accepted something late, and so never if it
      is not disturbed. */
  lemma ServerFirstCall(l: Link, m: Payload, early: seq<LinkAct>, late: seq<LinkAct>, a: Arrival, expired: bool, retry: bool)
    requires LinkInv(l) && Contract(l, ServerBegin(m))
    requires Meanwhile(LinkStep(LinkStep(l, ServerBegin(m)), ServerSend), early).Some?
    requires var l1 := Meanwhile(LinkStep(LinkStep(l, ServerBegin(m)), ServerSend), early).value;
             Meanwhile(LinkStep(l1, ServerRecord), late).Some?
    ensures var l1 := Meanwhile(LinkStep(LinkStep(l, ServerBegin(m)), ServerSend), early).value;
            var l2 := LinkStep(l1, ServerRecord);
            var l3 := Meanwhile(l2, late).value;
            var r := Check(l3.s, a, expired, retry);
            && Transmit(BegWrite(l.s, m), true).sent == [Packet(l.s.seqNo, m)] && l2.s == Record(l1.s)
            && l2.toC == l.toC + {Packet(l.s.seqNo, m)} && l3.sentS == l.sentS + [m]
            && ServerWait(l3, r.code).toC == l3.toC + SetOf(r.sent)
            && (r.code == ENone <==> l3.s.seqNo > l1.s.seqNo)
            && (r.code != EFin ==> ServerWait(l3, r.code).s == r.e)
            && (if r.code == ENone then r.sent == [] else RetransmitsWhenDue(Packet(l.s.seqNo, m), expired, retry, r.code, r.sent))
  {
    ServerTransmits(l, m, early);
    var l1 := Meanwhile(LinkStep(LinkStep(l, ServerBegin(m)), ServerSend), early).value;
    var l2 := LinkStep(l1, ServerRecord);
    WorkersLeaveWrite(l2, late);
    ServerChecks(Meanwhile(l2, late).value, a, expired, retry);
  }

  /** A further call on the coordinator's side, which looks at the number that the workers have
      moved it to by then. */
  lemma ServerNextCall(l: Link, a: Arrival, expired: bool, retry: bool)
    requires LinkInv(l) && l.stage == Waiting
    ensures var r := Check(l.s, a, expired, retry);
            && Transmit(l.s, true) == Transmission(l.s, false, [])
            && ServerWait(l, r.code).toC == l.toC + SetOf(r.sent)
            && (r.code == ENone <==> AckSeen(l.s))
            && (r.code != EFin ==> ServerWait(l, r.code).s == r.e)
            && (if r.code == ENone then r.sent == [] else RetransmitsWhenDue(l.s.outBuf, expired, retry, r.code, r.sent))
  {
    ServerChecks(l, a, expired, retry);
  }

  /** PROGRESS THROUGH THE CALL. An end_write of the client whose timer has run out, on the
      client's turn, sends a datagram that the coordinator's side accepts; the pair of numbers
      moves on. */
  lemma ClientCallMoves(l: Link)
    requires LinkInv(l) && l.s.seqNo == l.c.seqNo - 1 && l.s.slot.None?
    requires l.c.outstanding && l.c.currentSeq == l.c.seqNo
    ensures var r := EndWrite(l.c, true, WouldBlock, true, true);
            && r.code == RtoFired && |r.sent| == 1 && r.e.outstanding
            && var l1 := l.(c := r.e, toS := l.toS + SetOf(r.sent));
               var l2 := LinkStep(l1, ServerRead(r.sent[0]));
               && Possible(l1, ServerRead(r.sent[0])) && l2.c.seqNo == l.c.seqNo
               && l2.s.seqNo == l.s.seqNo + 1 && l2.gotS == l.gotS + [r.sent[0].msg]
  {
    ClientNextCall(l, WouldBlock, true, true);
  }

  /** The same for the coordinator, if its write has not lost the race. */
  lemma ServerCallMoves(l: Link)
    requires LinkInv(l) && l.s.seqNo == l.c.seqNo && l.stage == Waiting && !AckSeen(l.s) && !RaceLost(l)
    ensures var r := EndWrite(l.s, true, WouldBlock, true, true);
            && r.code == RtoFired && |r.sent| == 1 && r.e.outstanding
            && var l1 := l.(s := r.e, toC := l.toC + SetOf(r.sent));
               var l2 := LinkStep(l1, ClientRead(r.sent[0]));
               && Possible(l1, ClientRead(r.sent[0])) && l2.s.seqNo == l.s.seqNo
               && l2.c.seqNo == l.c.seqNo + 1 && l2.gotC == l.gotC + [r.sent[0].msg]
  {
    ServerNextCall(l, WouldBlock, true, true);
  }

  /** A signed 16-bit counter. */
  function Wrapped(x: int): int {
    (x + 32768) % 65536 - 32768
  }

  function BumpMany(isServer: bool, m: Payload, k: nat): Payload {
    if k == 0 then m else Bump(isServer, BumpMany(isServer, m, k - 1))
  }

  /** Retransmissions count in the counter of their own side, modulo 2 to the 16, and change
      nothing else in the message. */
  lemma {:induction false} RetransmissionsCount(isServer: bool, m: Payload, k: nat)
    requires -32768 <= m.cRto <= 32767 && -32768 <= m.sRto <= 32767
    ensures BumpMany(isServer, m, k)
            == if isServer then m.(cRto := Wrapped(m.cRto + k)) else m.(sRto := Wrapped(m.sRto + k))
  {
    if k > 0 {
      RetransmissionsCount(isServer, m, k - 1);
      IncWraps(if isServer then m.cRto + k - 1 else m.sRto + k - 1);
    }
  }

  lemma IncWraps(x: int)
    ensures -32768 <= Wrapped(x) <= 32767 && Inc16(Wrapped(x)) == Wrapped(x + 1)
  {
  }
}
