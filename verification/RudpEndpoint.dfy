/** One endpoint of the reliable-UDP transport, as functions on its state.

    `isServer` keeps the name it has in the source, where it is true in the CLIENT process
    (it is set to "not transport.server"): that side starts at sequence number 0 and takes
    exactly its own number; the coordinator's side starts at -1 and takes any larger one. */
module RudpEndpoint {
  import opened Messages
  import opened Transport

  datatype End = End(
    isServer: bool, seqNo: int,
    slot: Option<Packet>,                // read_data: an accepted, unreleased datagram
    outBuf: Packet,                      // the write buffer, header and message
    outstanding: bool, currentSeq: int)

  function InitEnd(isServer: bool): End {
    End(isServer, if isServer then 0 else -1, None, BLANK, false, 0)
  }

  predicate Accepts(e: End, n: int) {
    if e.isServer then n == e.seqNo else n > e.seqNo
  }

  function Accept(e: End, p: Packet): End {
    e.(slot := Some(p), seqNo := if e.isServer then e.seqNo + 1 else p.num)
  }

  datatype ReadResult = ReadResult(e: End, code: Code, data: Option<Payload>)

  function BegRead(e: End, a: Arrival): ReadResult {
    if e.slot.Some? then ReadResult(e, ENone, Some(e.slot.value.msg))
    else match a
      case WouldBlock => ReadResult(e, EAgain, None)
      case Closed => ReadResult(e, EFin, None)
      case Datagram(p) =>
        if Accepts(e, p.num) then ReadResult(Accept(e, p), ENone, Some(p.msg))
        else ReadResult(e, EAgain, None)
  }

  function EndRead(e: End): End {
    e.(slot := None)
  }

  /** Stamps the write buffer with the current number; the caller fills in the message. */
  function BegWrite(e: End, m: Payload): End {
    e.(outBuf := Packet(e.seqNo, m))
  }

  /** A 16-bit counter: 32767 + 1 wraps. */
  function Inc16(x: int): int {
    if x == 32767 then -32768 else x + 1
  }

  function Bump(isServer: bool, m: Payload): (r: Payload)
    ensures r.core == m.core && r.ts == m.ts
  {
    if isServer then m.(cRto := Inc16(m.cRto)) else m.(sRto := Inc16(m.sRto))
  }

  /** After the first transmission: remember the number that must change. */
  function Record(e: End): End {
    e.(currentSeq := e.seqNo, outstanding := true)
  }

  predicate AckSeen(e: End) {
    e.currentSeq != e.seqNo
  }

  function Settle(e: End): End {
    e.(outstanding := false)
  }

  function Touched(e: End): End {
    e.(outBuf := e.outBuf.(msg := Bump(e.isServer, e.outBuf.msg)))
  }

  datatype WriteResult = WriteResult(e: End, code: Code, sent: seq<Packet>)

  datatype Transmission = Transmission(e: End, refused: bool, sent: seq<Packet>)

  /** The first part of conn_end_write: an outstanding write is not transmitted again, any
      other is transmitted and its number recorded. `first` says whether the base stream takes
      the transmission. */
  function Transmit(e: End, first: bool): Transmission {
    if e.outstanding then Transmission(e, false, [])
    else if first then Transmission(Record(e), false, [e.outBuf])
    else Transmission(e, true, [])
  }

  /** The rest of it, on the state it finds then: `a` is what a read would find, `expired` says
      whether the retransmit timer has run out and `retry` whether the base stream takes the
      retransmission. */
  function Check(e: End, a: Arrival, expired: bool, retry: bool): WriteResult {
    var f := if e.isServer then BegRead(e, a).e else e;
    if e.isServer && BegRead(e, a).code == EFin then WriteResult(f, EFin, [])
    else if AckSeen(f) then WriteResult(Settle(f), ENone, [])
    else if !expired then WriteResult(f, EAgain, [])
    else if retry then WriteResult(Touched(f), RtoFired, [Touched(f).outBuf])
    else WriteResult(Touched(f), EFin, [])
  }

  /** One call of conn_end_write that no other thread disturbs. */
  function EndWrite(e: End, first: bool, a: Arrival, expired: bool, retry: bool): WriteResult {
    var t := Transmit(e, first);
    if t.refused then WriteResult(t.e, EFin, t.sent)
    else
      var r := Check(t.e, a, expired, retry);
      r.(sent := t.sent + r.sent)
  }

  /** Giving up on a write poisons the next one. If a caller abandons a write (the client
      does so after RTOS_MAX retransmissions) and its number has moved on since, the next
      beg_write / end_write reports success without sending anything; a first call of
      end_write transmits the stamped buffer if and only if no write is outstanding. */
  lemma AbandonedWriteSwallowsNext(e: End, m: Payload, a: Arrival, expired: bool, retry: bool)
    requires e.slot.None?
    ensures var r := EndWrite(BegWrite(e, m), true, a, expired, retry);
            && (!e.outstanding <==> |r.sent| > 0 && r.sent[0] == Packet(e.seqNo, m))
            && (e.outstanding && !e.isServer && AckSeen(e) ==> r.code == ENone && r.sent == [])
            && (e.outstanding && e.isServer && AckSeen(e) && a == WouldBlock ==> r.code == ENone && r.sent == [])
  {
  }
}
