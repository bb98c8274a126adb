/** What the transports share: the codes that their calls return, and datagrams. */
module Transport {
  import opened Messages

  /** The return codes of a transport call. */
  datatype Code = ENone | EAgain | EFin | RtoFired

  /** A message as it travels: the protocol part, the two retransmit counters, the time stamp. */
  datatype Payload = Payload(core: Msg, cRto: int, sRto: int, ts: int)

  /** A datagram: the sequence number header and the message. */
  datatype Packet = Packet(num: int, msg: Payload)

  /** What a read of the socket finds. */
  datatype Arrival = Datagram(p: Packet) | WouldBlock | Closed

  const BLANK := Packet(0, Payload(Msg(Lost, 0), 0, 0, 0))
}
