/** The guarantees of the two-phase-commit program over the lossy network. */
module RudpTheorems {
  import opened Messages
  import opened Channel
  import opened TwoPhase
  import opened FifoSystem
  import opened CommitInvariant
  import opened CommitTheorems
  import opened Transport
  import opened RudpEndpoint
  import opened RudpLink
  import opened RudpSystem

  /** Client i transmitted its vote number k and it says yes. */
  predicate SentYes(rs: RSys, i: nat, k: nat)
    requires i < |rs.links|
  {
    k < |rs.links[i].sentC| && rs.links[i].sentC[k].core.kind == VoteYes
  }

  /** ATOMIC COMMIT OVER RUDP. In every run, with any loss, duplication and reordering: a
      datagram on its way to a client that says commit carries an odd number k, and every
      client has itself transmitted a yes vote with that number. */
  lemma CommitOverRudp(c: Config, acts: seq<RAct>, j: nat, p: Packet)
    requires ValidConfig(c) && RRun(c, acts).Some? && j < c.n
    requires p in RRun(c, acts).value.links[j].toC && p.msg.core.kind == Commit
    ensures p.num > 0 && p.num % 2 == 1 && forall i :: 0 <= i < c.n ==> SentYes(RRun(c, acts).value, i, p.num)
  {
    RunRefines(c, acts);
    var rs := RRun(c, acts).value;
    var s := Abstract(rs);
    assert Couple(c, rs.p, rs.links[j], j) && Genuine(p, rs.links[j].sentS);
    assert s.ch[j].down[p.num] == p.msg.core;
    CommitIsUnanimous(c, s, j, p.num);
    forall i | 0 <= i < c.n ensures SentYes(rs, i, p.num) {
      assert VotedYes(c, s, i, p.num);
    }
  }

  predicate SentNo(rs: RSys, i: nat, k: nat)
    requires i < |rs.links|
  {
    k < |rs.links[i].sentC| && rs.links[i].sentC[k].core.kind == VoteNo
  }

  /** The other half: a cancel numbered k implies that some client has itself transmitted a no
      vote with that number. */
  lemma CancelOverRudp(c: Config, acts: seq<RAct>, j: nat, p: Packet)
    requires ValidConfig(c) && RRun(c, acts).Some? && j < c.n
    requires p in RRun(c, acts).value.links[j].toC && p.msg.core.kind == Cancel
    ensures p.num > 0 && p.num % 2 == 1 && exists i :: 0 <= i < c.n && SentNo(RRun(c, acts).value, i, p.num)
  {
    RunRefines(c, acts);
    var rs := RRun(c, acts).value;
    var s := Abstract(rs);
    assert Couple(c, rs.p, rs.links[j], j) && Genuine(p, rs.links[j].sentS);
    assert s.ch[j].down[p.num] == p.msg.core;
    CommitIsUnanimous(c, s, j, p.num);
    var i :| 0 <= i < c.n && VotedNo(c, s, i, p.num);
    assert SentNo(rs, i, p.num);
  }

  /** do_connectall leaves its loop exactly when each link has delivered its one con message. */
  lemma ConnectOverRudp(c: Config, acts: seq<RAct>)
    requires ValidConfig(c) && RRun(c, acts).Some? && RRun(c, acts).value.p.pc.Connecting?
    ensures var rs := RRun(c, acts).value;
            && rs.p.pc.k <= c.n
            && (rs.p.pc.k >= c.n <==> forall j :: 0 <= j < c.n ==> Cores(rs.links[j].gotS) == [Msg(Con, c.ids[j])])
  {
    RunRefines(c, acts);
    ConnectIsExact(c, ProgramSteps(acts));
    var rs := RRun(c, acts).value;
    forall j | 0 <= j < c.n
      ensures Cores(rs.links[j].gotS) == [Msg(Con, c.ids[j])]
              <==> Abstract(rs).ch[j].upGot == 1 && Abstract(rs).ch[j].up == [Msg(Con, c.ids[j])]
    {
      OneConOverRudp(c, rs, j);
    }
  }

  /** While main is connecting, what a link has delivered is its con message or nothing. */
  lemma OneConOverRudp(c: Config, rs: RSys, j: nat)
    requires RInv(c, rs) && rs.p.pc.Connecting? && j < c.n
    ensures Cores(rs.links[j].gotS) == [Msg(Con, c.ids[j])]
            <==> Abstract(rs).ch[j].upGot == 1 && Abstract(rs).ch[j].up == [Msg(Con, c.ids[j])]
  {
    var l, x := rs.links[j], Abstract(rs).ch[j];
    assert Couple(c, rs.p, l, j) && ConnInv(c, rs.p, x, j);
    assert SamePrefix(l.gotS, l.sentC) && |x.up| <= 1 && x.upGot == |l.gotS|;
    if |l.gotS| == 1 {
      assert x.up[0] == UpMsg(c, j, 0) && l.gotS[0].core == l.sentC[0].core == x.up[0];
    }
  }

  /** A client over reliable UDP that waits for a request takes a request, one that waits for a
      decision takes a decision. */
  lemma ClientUnderstandsOverRudp(c: Config, acts: seq<RAct>, j: nat, p: Packet, m: Payload)
    requires ValidConfig(c) && RRun(c, acts).Some? && j < c.n
    requires RCan(c, RRun(c, acts).value, Prog(Peer(j, Receive), p, m))
    ensures var rs := RRun(c, acts).value;
            RApply(c, rs, Prog(Peer(j, Receive), p, m)).p.clients[j].pc
              == if rs.p.clients[j].pc == WaitRequest then Voting else Acking
  {
    RunRefines(c, acts);
    var rs := RRun(c, acts).value;
    ProgramStepRefines(c, rs, Peer(j, Receive), p, m);
    ClientUnderstands(c, ProgramSteps(acts), j);
    assert Abstract(RApply(c, rs, Prog(Peer(j, Receive), p, m))).p == Apply(c, Abstract(rs), Peer(j, Receive)).p;
  }

  /** NUMBERS ENCODE ROUNDS. A datagram on its way to the coordinator carries number 0 iff it
      is the con message, 2r + 1 iff it is the vote of round r and 2r + 2 iff it is the ack of
      round r; one on its way to a client carries 2r for the request of round r and 2r + 1
      for its decision. */
  lemma NumbersEncodeRounds(c: Config, acts: seq<RAct>, j: nat, p: Packet)
    requires ValidConfig(c) && RRun(c, acts).Some? && j < c.n
    ensures var rs := RRun(c, acts).value;
            && (p in rs.links[j].toS ==> p.num >= 0 && p.msg.core == UpMsg(c, j, p.num))
            && (p in rs.links[j].toC ==> p.num >= 0 && DownMsg(rs.p.decisions, p.num, p.msg.core))
  {
    RunRefines(c, acts);
    var rs := RRun(c, acts).value;
    var x := Abstract(rs).ch[j];
    assert Couple(c, rs.p, rs.links[j], j) && ConnInv(c, rs.p, x, j);
    if p in rs.links[j].toS {
      assert Genuine(p, rs.links[j].sentC) && x.up[p.num] == p.msg.core;
    }
    if p in rs.links[j].toC {
      assert Genuine(p, rs.links[j].sentS) && x.down[p.num] == p.msg.core;
    }
  }

  /** The number that main's current send_request stamps is 2r for the request of round r and
      2r + 1 for its decision. */
  lemma StampIsRound(c: Config, acts: seq<RAct>, j: nat)
    requires ValidConfig(c) && RRun(c, acts).Some? && j < c.n
    requires var rs := RRun(c, acts).value; rs.p.pc.Writing? && rs.p.pc.j == j && j !in rs.p.pc.put
    ensures var rs := RRun(c, acts).value;
            rs.links[j].s.outBuf.num == 2 * rs.p.round + (if rs.p.second then 1 else 0)
            && rs.links[j].s.outBuf.msg.core == Outgoing(rs.p)
  {
    RunRefines(c, acts);
    var rs := RRun(c, acts).value;
    assert Couple(c, rs.p, rs.links[j], j) && ConnInv(c, rs.p, Abstract(rs).ch[j], j);
  }

  /** A link whose abstract channel is settled has nothing under way. */
  predicate Drained(l: Link) {
    |l.gotC| == |l.sentS| && |l.gotS| == |l.sentC| && l.c.slot.None? && l.stage == Idle
  }

  lemma SettledIsDrained(c: Config, rs: RSys, j: nat)
    requires RInv(c, rs) && rs.p.pc.RoundTop? && !rs.p.cut && j < c.n
    requires var x := AsChan(rs.links[j]); |x.down| == x.downGot && |x.up| == x.upGot
    ensures Drained(rs.links[j])
  {
    assert Couple(c, rs.p, rs.links[j], j);
  }

  /** AGREEMENT OVER RUDP. At the top of the round loop with stop_signal false every link is
      settled: both histories are complete up to the last round, all that was transmitted was
      accepted, the client's read slot is free and the coordinator's writes are all done. */
  lemma AgreementOverRudp(c: Config, acts: seq<RAct>, j: nat)
    requires ValidConfig(c) && RRun(c, acts).Some? && j < c.n
    requires RRun(c, acts).value.p.pc.RoundTop? && !RRun(c, acts).value.p.stop
    ensures var rs := RRun(c, acts).value;
            && Settled(c, AsChan(rs.links[j]), j, rs.p.decisions) && Drained(rs.links[j])
            && |rs.p.decisions| == rs.p.round
            && (forall k :: 0 <= k < rs.p.round ==> (rs.p.decisions[k] <==> AllYes(c, k)))
  {
    RunRefines(c, acts);
    var rs := RRun(c, acts).value;
    BoundaryIsQuiet(c, Abstract(rs), j);
    SettledIsDrained(c, rs, j);
  }
}
