/** Values that every layer shares: message kinds, protocol messages, options, the minimum. */
module Messages {

  datatype Option<+T> = None | Some(value: T)

  /** The message types of q2pc_protocol.h, in the order of the enumeration.
      `Lost` is never sent: it marks an empty scoreboard entry. */
  datatype Kind = Lost | Request | VoteYes | VoteNo | Commit | Cancel | Ack | Con

  /** The part of a message that the protocol acts on. */
  datatype Msg = Msg(kind: Kind, src: int)

  /** The source id that the coordinator writes into every message (all bits set). */
  const SERVER_ID: int := -1

  function Min(a: int, b: int): int {
    if a < b then a else b
  }
}
