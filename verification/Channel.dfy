/** A reliable FIFO connection in each direction, with its whole history.

    `down` holds every message the coordinator ever put on the connection and `up`
    every message the client ever put on it; the two counters say how many the peer
    has taken. Keeping the histories makes the position of a message its identity:
    round numbers are read off positions and need no ghost tags. */
module Channel {
  import opened Messages

  datatype Chan = Chan(down: seq<Msg>, downGot: nat, up: seq<Msg>, upGot: nat)

  const EMPTY_CHAN := Chan([], 0, [], 0)

  /** What one protocol step does to a connection. Beginning a write, learning that a
      write was acknowledged and releasing the read slot do nothing to a FIFO channel;
      they matter to the transports underneath. */
  datatype Label =
    | Tau
    | Begin(j: nat, m: Msg)
    | Put(j: nat, m: Msg)
    | Acked(j: nat)
    | Take(j: nat)
    | Release(j: nat)
    | Drain(j: nat)
    | ClientPut(j: nat, m: Msg)
    | ClientAcked(j: nat)
    | ClientTake(j: nat)

  /** Reads block until a message is there; writes never block. */
  predicate ReadyOn(x: Chan, l: Label) {
    match l
    case Take(_) => x.upGot < |x.up|
    case Drain(_) => x.upGot < |x.up|
    case ClientTake(_) => x.downGot < |x.down|
    case _ => true
  }

  /** The message that a reading step receives. */
  function Head(x: Chan, l: Label): Msg
    requires ReadyOn(x, l)
  {
    match l
    case Take(_) => x.up[x.upGot]
    case Drain(_) => x.up[x.upGot]
    case ClientTake(_) => x.down[x.downGot]
    case _ => Msg(Lost, SERVER_ID)
  }

  /** The effect of a label on the connection that it names. */
  function Touch(x: Chan, l: Label): Chan {
    match l
    case Put(_, m) => x.(down := x.down + [m])
    case Take(_) => x.(upGot := x.upGot + 1)
    case Drain(_) => x.(upGot := x.upGot + 1)
    case ClientPut(_, m) => x.(up := x.up + [m])
    case ClientTake(_) => x.(downGot := x.downGot + 1)
    case _ => x
  }

  predicate Ready(ch: seq<Chan>, l: Label) {
    l == Tau || (l.j < |ch| && ReadyOn(ch[l.j], l))
  }

  function Incoming(ch: seq<Chan>, l: Label): Msg
    requires Ready(ch, l)
  {
    if l == Tau then Msg(Lost, SERVER_ID) else Head(ch[l.j], l)
  }

  function Transfer(ch: seq<Chan>, l: Label): (r: seq<Chan>)
    requires Ready(ch, l)
    ensures |r| == |ch|
  {
    if l == Tau then ch else ch[l.j := Touch(ch[l.j], l)]
  }
}
