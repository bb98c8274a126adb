/** Two endpoints over a network that loses, duplicates and reorders datagrams, and the
    proof that together they are a reliable FIFO connection in each direction. */
module RudpLink {
  import opened Messages
  import opened Transport
  import opened RudpEndpoint

  /** Where the coordinator is with its write. The first transmission and the recording of
      current_seq are two steps: a worker thread may accept a message in between. */
  datatype Stage = Idle | Stamped | Sent | Waiting

  /** `c` is the endpoint in the client process, `s` the one in the coordinator. The network
      keeps every datagram ever sent: a delivery picks any of them, any number of times.
      `sentX` lists the messages X transmitted, `gotX` those X accepted. */
  datatype Link = Link(
    c: End, s: End, stage: Stage,
    toS: set<Packet>, toC: set<Packet>,
    sentC: seq<Payload>, gotS: seq<Payload>,
    sentS: seq<Payload>, gotC: seq<Payload>)

  const INIT_LINK := Link(InitEnd(true), InitEnd(false), Idle, {}, {}, [], [], [], [])

  datatype LinkAct =
    | ClientRead(p: Packet) | ClientRelease
    | ClientSend(m: Payload) | ClientAck | ClientRetry
    | ServerRead(p: Packet) | ServerRelease
    | ServerBegin(m: Payload) | ServerSend | ServerRecord | ServerAck | ServerRetry

  /** What the network and the return codes allow. */
  predicate Possible(l: Link, a: LinkAct) {
    match a
    case ClientRead(p) => p in l.toC
    case ServerRead(p) => p in l.toS
    case ClientAck => AckSeen(l.c)
    case ServerAck => AckSeen(l.s)
    case _ => true
  }

  /** What the callers must do: a write is completed before the next one begins, the client
      has released what it read before it writes, and the coordinator writes only after it
      has accepted the client's first message. */
  predicate Contract(l: Link, a: LinkAct) {
    match a
    case ClientSend(_) => !l.c.outstanding && l.c.slot.None?
    case ClientAck => l.c.outstanding
    case ClientRetry => l.c.outstanding
    case ServerBegin(_) => l.stage == Idle && l.s.seqNo >= 0
    case ServerSend => l.stage == Stamped
    case ServerRecord => l.stage == Sent
    case ServerAck => l.stage == Waiting
    case ServerRetry => l.stage == Waiting
    case _ => true
  }

  function TakeIn(e: End, p: Packet, got: seq<Payload>): seq<Payload> {
    if e.slot.None? && Accepts(e, p.num) then got + [p.msg] else got
  }

  function LinkStep(l: Link, a: LinkAct): Link {
    match a
    case ClientRead(p) => l.(c := BegRead(l.c, Datagram(p)).e, gotC := TakeIn(l.c, p, l.gotC))
    case ClientRelease => l.(c := EndRead(l.c))
    case ClientSend(m) =>
      var e := BegWrite(l.c, m);
      l.(c := Record(e), toS := l.toS + {e.outBuf}, sentC := l.sentC + [m])
    case ClientAck => l.(c := Settle(l.c))
    case ClientRetry => l.(c := Touched(l.c), toS := l.toS + {Touched(l.c).outBuf})
    case ServerRead(p) => l.(s := BegRead(l.s, Datagram(p)).e, gotS := TakeIn(l.s, p, l.gotS))
    case ServerRelease => l.(s := EndRead(l.s))
    case ServerBegin(m) => l.(s := BegWrite(l.s, m), stage := Stamped)
    case ServerSend => l.(toC := l.toC + {l.s.outBuf}, sentS := l.sentS + [l.s.outBuf.msg], stage := Sent)
    case ServerRecord => l.(s := Record(l.s), stage := Waiting)
    case ServerAck => l.(s := Settle(l.s), stage := Idle)
    case ServerRetry => l.(s := Touched(l.s), toC := l.toC + {Touched(l.s).outBuf})
  }

  function LinkRun(acts: seq<LinkAct>): Option<Link> {
    if acts == [] then Some(INIT_LINK)
    else
      var prev := LinkRun(acts[..|acts| - 1]);
      var a := acts[|acts| - 1];
      if prev.Some? && Possible(prev.value, a) && Contract(prev.value, a)
      then Some(LinkStep(prev.value, a))
      else None
  }

  // ------------------------------------------------------------------- invariant

  /** LOCKSTEP. The coordinator's number is the client's or one behind; the counters say how
      many messages went each way. */
  predicate Numbers(l: Link) {
    var a, b := l.c.seqNo, l.s.seqNo;
    && l.c.isServer && !l.s.isServer
    && (b == a - 1 || b == a) && a >= 0
    && |l.gotC| == a && |l.gotS| == b + 1
    && |l.gotC| <= |l.sentS| && |l.gotS| <= |l.sentC|
  }

  predicate ClientSide(l: Link)
    requires Numbers(l)
  {
    var a, cur := l.c.seqNo, l.c.currentSeq;
    && (if l.c.outstanding
        then (cur == a || cur == a - 1) && |l.sentC| == cur + 1 && l.c.outBuf.num == cur && cur >= 0
             && l.c.outBuf.msg.core == l.sentC[cur].core
             && (cur == a ==> l.c.slot.None?)
        else |l.sentC| == a)
    && (l.c.slot.Some? ==> a >= 1 && l.c.slot.value.msg == l.gotC[a - 1])
  }

  predicate ServerSide(l: Link)
    requires Numbers(l)
  {
    var b, n := l.s.seqNo, |l.sentS| - 1;
    && (match l.stage
        case Idle => !l.s.outstanding && n + 1 == if b < 0 then 0 else b
        case Stamped => !l.s.outstanding && b >= 0 && n + 1 == b && l.s.outBuf.num == b
        case Sent => !l.s.outstanding && n >= 0 && (b == n || b == n + 1) && l.s.outBuf.num == n
                     && l.s.outBuf.msg.core == l.sentS[n].core
        case Waiting => l.s.outstanding && n >= 0 && (b == n || b == n + 1) && l.s.outBuf.num == n
                        && l.s.outBuf.msg.core == l.sentS[n].core
                        && (l.s.currentSeq == n || (l.s.currentSeq == n + 1 && b == n + 1)))
    && (l.s.slot.Some? ==> b >= 0 && l.s.slot.value.msg == l.gotS[b])
  }

  /** A datagram in flight is (up to its retransmit counters) the message its number names. */
  predicate Genuine(p: Packet, sent: seq<Payload>) {
    0 <= p.num < |sent| && p.msg.core == sent[p.num].core
  }

  predicate SamePrefix(got: seq<Payload>, sent: seq<Payload>) {
    |got| <= |sent| && forall k :: 0 <= k < |got| ==> got[k].core == sent[k].core
  }

  predicate LinkInv(l: Link) {
    && Numbers(l) && ClientSide(l) && ServerSide(l)
    && (forall p :: p in l.toS ==> Genuine(p, l.sentC))
    && (forall p :: p in l.toC ==> Genuine(p, l.sentS))
    && SamePrefix(l.gotS, l.sentC) && SamePrefix(l.gotC, l.sentS)
  }

  lemma ClientStepKeeps(l: Link, a: LinkAct)
    requires LinkInv(l) && Possible(l, a) && Contract(l, a)
    requires a.ClientRead? || a.ClientRelease? || a.ClientSend? || a.ClientAck? || a.ClientRetry?
    ensures LinkInv(LinkStep(l, a))
  {
    if a.ClientRead? {
      assert Genuine(a.p, l.sentS);
    }
  }

  lemma ServerStepKeeps(l: Link, a: LinkAct)
    requires LinkInv(l) && Possible(l, a) && Contract(l, a)
    requires !(a.ClientRead? || a.ClientRelease? || a.ClientSend? || a.ClientAck? || a.ClientRetry?)
    ensures LinkInv(LinkStep(l, a))
  {
    if a.ServerRead? {
      assert Genuine(a.p, l.sentC);
    }
  }

  lemma LinkStepKeeps(l: Link, a: LinkAct)
    requires LinkInv(l) && Possible(l, a) && Contract(l, a)
    ensures LinkInv(LinkStep(l, a))
  {
    if a.ClientRead? || a.ClientRelease? || a.ClientSend? || a.ClientAck? || a.ClientRetry? {
      ClientStepKeeps(l, a);
    } else {
      ServerStepKeeps(l, a);
    }
  }

  lemma {:induction false} LinkRunInv(acts: seq<LinkAct>)
    requires LinkRun(acts).Some?
    ensures LinkInv(LinkRun(acts).value)
  {
    if acts != [] {
      LinkRunInv(acts[..|acts| - 1]);
      LinkStepKeeps(LinkRun(acts[..|acts| - 1]).value, acts[|acts| - 1]);
    }
  }

  // -------------------------------------------------------------------- theorems

  /** RELIABLE FIFO. After any run over the lossy network, in each direction: what was
      accepted is a prefix of what was transmitted (each message once, in order, equal up to
      the retransmit counters), and every write that returned ENONE is among the accepted. */
  lemma ReliableFifo(acts: seq<LinkAct>)
    requires LinkRun(acts).Some?
    ensures var l := LinkRun(acts).value;
            && SamePrefix(l.gotS, l.sentC) && SamePrefix(l.gotC, l.sentS)
            && |l.sentC| - (if l.c.outstanding then 1 else 0) <= |l.gotS|
            && |l.sentS| - (if l.stage == Sent || l.stage == Waiting then 1 else 0) <= |l.gotC|
  {
    LinkRunInv(acts);
  }

  /** LOCKSTEP. The two numbers differ by at most one, every datagram in flight carries a
      number at most its sender's, and the coordinator's "any larger number" test never
      skips one: what it accepts is exactly the next number. */
  lemma Lockstep(acts: seq<LinkAct>)
    requires LinkRun(acts).Some?
    ensures var l := LinkRun(acts).value;
            && (l.s.seqNo == l.c.seqNo || l.s.seqNo == l.c.seqNo - 1)
            && (forall p :: p in l.toS ==> 0 <= p.num <= l.c.seqNo && (Accepts(l.s, p.num) ==> p.num == l.s.seqNo + 1))
            && (forall p :: p in l.toC ==> 0 <= p.num <= l.s.seqNo)
  {
    LinkRunInv(acts);
    var l := LinkRun(acts).value;
    forall p | p in l.toS ensures 0 <= p.num <= l.c.seqNo && (Accepts(l.s, p.num) ==> p.num == l.s.seqNo + 1) {
      assert Genuine(p, l.sentC);
    }
    forall p | p in l.toC ensures 0 <= p.num <= l.s.seqNo {
      assert Genuine(p, l.sentS);
    }
  }

  /** When end_write can return ENONE, on either side, the peer has accepted this very message. */
  lemma AckMeans(l: Link)
    requires LinkInv(l)
    ensures l.c.outstanding && Possible(l, ClientAck) ==>
              && 0 <= l.c.outBuf.num <= l.s.seqNo && l.c.outBuf.num < |l.gotS|
              && l.gotS[l.c.outBuf.num].core == l.c.outBuf.msg.core
    ensures l.stage == Waiting && Possible(l, ServerAck) ==>
              && 0 <= l.s.outBuf.num < l.c.seqNo && l.s.outBuf.num < |l.gotC|
              && l.gotC[l.s.outBuf.num].core == l.s.outBuf.msg.core
  {
  }

  lemma StepGrows(l: Link, a: LinkAct)
    requires LinkInv(l) && Possible(l, a)
    ensures var l' := LinkStep(l, a);
            l.c.seqNo <= l'.c.seqNo && l.s.seqNo <= l'.s.seqNo && l.gotS <= l'.gotS && l.gotC <= l'.gotC
  {
  }

  /** Numbers never go back and what was accepted stays. */
  lemma {:induction false} RunGrows(acts: seq<LinkAct>, n: nat)
    requires n <= |acts| && LinkRun(acts).Some? && LinkRun(acts[..n]).Some?
    ensures var l, l' := LinkRun(acts[..n]).value, LinkRun(acts).value;
            l.c.seqNo <= l'.c.seqNo && l.s.seqNo <= l'.s.seqNo && l.gotS <= l'.gotS && l.gotC <= l'.gotC
    decreases |acts|
  {
    if n == |acts| {
      assert acts[..n] == acts;
    } else {
      var front := acts[..|acts| - 1];
      assert front[..n] == acts[..n];
      RunGrows(front, n);
      LinkRunInv(front);
      StepGrows(LinkRun(front).value, acts[|acts| - 1]);
    }
  }

  /** ACK SOUNDNESS. When end_write can return ENONE, on either side, the peer has accepted
      this very message; and however the run goes on, that message stays where it is and the
      peer drops every further datagram with its number or a smaller one. */
  lemma AckSoundness(acts: seq<LinkAct>, n: nat)
    requires n <= |acts| && LinkRun(acts).Some? && LinkRun(acts[..n]).Some?
    ensures var l, l' := LinkRun(acts[..n]).value, LinkRun(acts).value;
            && (l.c.outstanding && Possible(l, ClientAck) ==>
                  && 0 <= l.c.outBuf.num < |l'.gotS| && l'.gotS[l.c.outBuf.num].core == l.c.outBuf.msg.core
                  && forall p: Packet :: p.num <= l.c.outBuf.num ==> TakeIn(l'.s, p, l'.gotS) == l'.gotS)
            && (l.stage == Waiting && Possible(l, ServerAck) ==>
                  && 0 <= l.s.outBuf.num < |l'.gotC| && l'.gotC[l.s.outBuf.num].core == l.s.outBuf.msg.core
                  && forall p: Packet :: p.num <= l.s.outBuf.num ==> TakeIn(l'.c, p, l'.gotC) == l'.gotC)
  {
    LinkRunInv(acts[..n]);
    LinkRunInv(acts);
    AckMeans(LinkRun(acts[..n]).value);
    RunGrows(acts, n);
  }

  /** The coordinator's write lost the race: a reply came in between its first transmission
      and the recording of current_seq. */
  predicate RaceLost(l: Link) {
    l.stage == Waiting && l.s.currentSeq != l.s.outBuf.num
  }

  /** It has lost the race, or will lose it as soon as it is recorded. */
  predicate RaceOver(l: Link) {
    RaceLost(l) || (l.stage == Sent && l.s.seqNo != l.s.outBuf.num)
  }

  /** PROGRESS. In every reachable state, if the side whose turn it is has a write
      outstanding that has not lost the race, then one retransmission followed by its delivery
      into a free read slot is accepted, and the pair of numbers moves on by one. */
  lemma ClientProgress(l: Link)
    requires LinkInv(l) && l.s.seqNo == l.c.seqNo - 1
    requires l.c.outstanding && l.c.currentSeq == l.c.seqNo && l.s.slot.None?
    ensures var l1 := LinkStep(l, ClientRetry); var p := l1.c.outBuf; var l2 := LinkStep(l1, ServerRead(p));
            && Possible(l1, ServerRead(p))
            && l2.s.seqNo == l2.c.seqNo == l.c.seqNo && l2.gotS == l.gotS + [p.msg]
  {
  }

  lemma ServerProgress(l: Link)
    requires LinkInv(l) && l.s.seqNo == l.c.seqNo
    requires l.stage == Waiting && !AckSeen(l.s)
    ensures var l1 := LinkStep(l, ServerRetry); var p := l1.s.outBuf; var l2 := LinkStep(l1, ClientRead(p));
            && Possible(l1, ClientRead(p)) && l2.s.seqNo == l.s.seqNo
            && (!RaceLost(l) <==> l2.c.seqNo == l.c.seqNo + 1)
            && (!RaceLost(l) ==> l2.gotC == l.gotC + [p.msg] && l2.c.outstanding && Possible(l2, ClientAck))
            && (RaceLost(l) ==> l2.c == l.c && l2.gotC == l.gotC)
  {
  }

  /** The race cannot be made good: after any further run the write is still outstanding and
      still unacknowledged, and neither side has accepted anything more. */
  predicate Stuck(l: Link, l': Link) {
    && RaceLost(l') && !Possible(l', ServerAck)
    && l'.c.seqNo == l.c.seqNo && l'.s.seqNo == l.s.seqNo && l'.gotC == l.gotC && l'.gotS == l.gotS
  }

  lemma RaceIsFinalStep(l: Link, a: LinkAct)
    requires LinkInv(l) && RaceLost(l) && Possible(l, a) && Contract(l, a)
    ensures Stuck(l, LinkStep(l, a))
  {
    match a
    case ClientRead(p) => assert Genuine(p, l.sentS);
    case ServerRead(p) => assert Genuine(p, l.sentC);
    case _ =>
  }

  lemma {:induction false} RaceIsFinal(acts: seq<LinkAct>, n: nat)
    requires n <= |acts| && LinkRun(acts).Some? && LinkRun(acts[..n]).Some? && RaceLost(LinkRun(acts[..n]).value)
    ensures Stuck(LinkRun(acts[..n]).value, LinkRun(acts).value)
    decreases |acts|
  {
    if n == |acts| {
      assert acts[..n] == acts;
      LinkRunInv(acts);
    } else {
      var front := acts[..|acts| - 1];
      assert front[..n] == acts[..n];
      RaceIsFinal(front, n);
      LinkRunInv(front);
      RaceIsFinalStep(LinkRun(front).value, acts[|acts| - 1]);
    }
  }

  /** Recording loses the race exactly if a reply was accepted since the transmission. */
  lemma RecordLosesRace(l: Link)
    requires LinkInv(l) && Contract(l, ServerRecord) && l.stage == Sent
    ensures RaceLost(LinkStep(l, ServerRecord)) <==> l.s.seqNo != l.s.outBuf.num
  {
  }

  /** Nothing comes between a first transmission of the coordinator and its recording. */
  predicate Prompt(acts: seq<LinkAct>) {
    |acts| < 2 ||
    var n := |acts| - 1;
    Prompt(acts[..n]) && (acts[n - 1] == ServerSend ==> acts[n] == ServerRecord)
  }

  lemma PromptStep(l: Link, a: LinkAct)
    requires LinkInv(l) && !RaceLost(l) && Possible(l, a) && Contract(l, a)
    requires l.stage == Sent ==> a == ServerRecord && l.s.seqNo == l.s.outBuf.num
    ensures var l' := LinkStep(l, a); !RaceLost(l') && (l'.stage == Sent ==> a == ServerSend && l'.s.seqNo == l'.s.outBuf.num)
  {
  }

  /** NO RACE. A run in which the recording always follows the transmission at once never
      loses the race, so every waiting write of the coordinator can go on (ServerProgress). */
  lemma {:induction false} PromptNeverLoses(acts: seq<LinkAct>)
    requires LinkRun(acts).Some? && Prompt(acts)
    ensures var l := LinkRun(acts).value;
            && !RaceLost(l)
            && (l.stage == Sent ==> acts != [] && acts[|acts| - 1] == ServerSend && l.s.seqNo == l.s.outBuf.num)
  {
    if acts != [] {
      var front := acts[..|acts| - 1];
      PromptNeverLoses(front);
      LinkRunInv(front);
      PromptStep(LinkRun(front).value, acts[|acts| - 1]);
    }
  }

  /** The race does occur: the client's reply to the first request overtakes the recording. */
  function RacyRun(con: Payload, request: Payload, vote: Payload): seq<LinkAct> {
    [ClientSend(con), ServerRead(Packet(0, con)), ServerRelease,
     ServerBegin(request), ServerSend,
     ClientRead(Packet(0, request)), ClientAck, ClientRelease, ClientSend(vote),
     ServerRead(Packet(1, vote)), ServerRecord]
  }

  lemma RunOneMore(acts: seq<LinkAct>, a: LinkAct)
    requires LinkRun(acts).Some? && Possible(LinkRun(acts).value, a) && Contract(LinkRun(acts).value, a)
    ensures LinkRun(acts + [a]) == Some(LinkStep(LinkRun(acts).value, a))
  {
    assert (acts + [a])[..|acts + [a]| - 1] == acts;
  }

  /** The request of the racy run is on its way and the client has taken it. */
  predicate RacyMiddle(l: Link, con: Payload, request: Payload) {
    && l.c == End(true, 1, Some(Packet(0, request)), Packet(0, con), true, 0)
    && l.s == End(false, 0, None, Packet(0, request), false, 0)
    && l.stage == Sent
  }

  /** The hello of the racy run has been taken and released. */
  lemma HelloIsTaken(con: Payload, request: Payload, vote: Payload)
    ensures var after := LinkRun(RacyRun(con, request, vote)[..3]);
            after.Some? && var l := after.value;
            && l.c == End(true, 0, None, Packet(0, con), true, 0)
            && l.s == End(false, 0, None, BLANK, false, 0)
            && l.stage == Idle && l.sentS == [] && l.gotS == [con]
  {
    var run := RacyRun(con, request, vote);
    RunOneMore([], run[0]);
    RunOneMore(run[..1], run[1]);
    assert run[..1] + [run[1]] == run[..2];
    RunOneMore(run[..2], run[2]);
    assert run[..2] + [run[2]] == run[..3];
  }

  lemma RaceBegins(con: Payload, request: Payload, vote: Payload)
    ensures LinkRun(RacyRun(con, request, vote)[..6]).Some?
    ensures RacyMiddle(LinkRun(RacyRun(con, request, vote)[..6]).value, con, request)
  {
    var run := RacyRun(con, request, vote);
    HelloIsTaken(con, request, vote);
    RunOneMore(run[..3], run[3]);
    assert run[..3] + [run[3]] == run[..4];
    RunOneMore(run[..4], run[4]);
    assert run[..4] + [run[4]] == run[..5];
    RunOneMore(run[..5], run[5]);
    assert run[..5] + [run[5]] == run[..6];
  }

  lemma RaceOccurs(con: Payload, request: Payload, vote: Payload)
    ensures LinkRun(RacyRun(con, request, vote)).Some?
    ensures RaceLost(LinkRun(RacyRun(con, request, vote)).value)
  {
    var run := RacyRun(con, request, vote);
    RaceBegins(con, request, vote);
    RunOneMore(run[..6], run[6]);
    assert run[..6] + [run[6]] == run[..7];
    RunOneMore(run[..7], run[7]);
    assert run[..7] + [run[7]] == run[..8];
    RunOneMore(run[..8], run[8]);
    assert run[..8] + [run[8]] == run[..9];
    RunOneMore(run[..9], run[9]);
    assert run[..9] + [run[9]] == run[..10];
    RunOneMore(run[..10], run[10]);
    assert run[..10] + [run[10]] == run;
  }
}
