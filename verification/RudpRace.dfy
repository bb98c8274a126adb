/** The race between a first transmission of the coordinator and its recording does occur in
    a run of the whole program: one client, one worker, one round. */
module RudpRace {
  import opened Messages
  import opened Channel
  import opened TwoPhase
  import opened CommitInvariant
  import opened Transport
  import opened RudpEndpoint
  import opened RudpLink
  import opened RudpSystem

  const C := Config(1, 1, [0], [1], (j: nat, r: nat) => true)

  function Of(kind: Kind, src: int): Payload {
    Payload(Msg(kind, src), 0, 0, 0)
  }

  const CON := Packet(0, Of(Con, 1))
  const REQUEST := Packet(0, Of(Request, SERVER_ID))
  const VOTE := Packet(1, Of(VoteYes, 1))

  ghost predicate Reached(s: RSys) {
    exists acts :: RRun(C, acts) == Some(s)
  }

  lemma Go(s: RSys, a: RAct) returns (t: RSys)
    requires Reached(s) && RShaped(C, s) && RCan(C, s, a)
    ensures t == RApply(C, s, a) && Reached(t)
  {
    var acts :| RRun(C, acts) == Some(s);
    assert (acts + [a])[..|acts + [a]| - 1] == acts;
    t := RApply(C, s, a);
    assert RRun(C, acts + [a]) == Some(t);
  }

  /** A step of main that is no call. */
  lemma Quietly(s: RSys, a: MainAct) returns (t: RSys)
    requires Reached(s) && RShaped(C, s) && CanMain(C, s.p, a) && MainEffect(C, s.p, a) == Tau
    ensures t == s.(p := MainNext(C, s.p, a, Msg(Lost, SERVER_ID))) && Reached(t) && RShaped(C, t)
  {
    t := Go(s, Prog(Main(a), CON, CON.msg));
  }

  /** A call of main, a worker or the client on the only link. */
  lemma Calls(s: RSys, a: Act, p: Packet, m: Payload) returns (t: RSys)
    requires Reached(s) && RShaped(C, s) && RCan(C, s, Prog(a, p, m)) && Effect(C, s.p, a) != Tau
    ensures Reached(t) && RShaped(C, t)
    ensures var e := Effect(C, s.p, a);
            t.p == Next(C, s.p, a, Handed(s.links[0], e, p)) && t.links[0] == OnLink(s.links[0], e, p, m)
  {
    t := Go(s, Prog(a, p, m));
  }

  predicate At(s: RSys, pc: MainPc, worker: WorkerPc, client: Client) {
    && RShaped(C, s) && s.p.pc == pc && s.p.workers[0] == worker && s.p.clients[0] == client
    && !s.p.stop && !s.p.pause && !s.p.second && s.p.status == Success
  }

  predicate Ends(l: Link, c: End, s: End, stage: Stage) {
    l.c == c && l.s == s && l.stage == stage
  }

  lemma Greeted() returns (s: RSys)
    ensures Reached(s) && At(s, Connecting(0), Top, Client(HelloSent, 0)) && CON in s.links[0].toS
    ensures Ends(s.links[0], End(true, 0, None, CON, true, 0), End(false, -1, None, BLANK, false, 0), Idle)
  {
    assert RRun(C, []) == Some(InitRSys(C));
    s := Calls(InitRSys(C), Peer(0, Hello), CON, CON.msg);
  }

  lemma Greeting() returns (s: RSys)
    ensures Reached(s) && At(s, Connecting(1), Top, Client(HelloSent, 0))
    ensures Ends(s.links[0], End(true, 0, None, CON, true, 0), End(false, 0, None, BLANK, false, 0), Idle)
  {
    s := Greeted();
    s := Calls(s, Main(Connect(0)), CON, CON.msg);
  }

  lemma Clearing() returns (s: RSys)
    ensures Reached(s) && At(s, Stamping(0), Top, Client(HelloSent, 0))
    ensures Ends(s.links[0], End(true, 0, None, CON, true, 0), End(false, 0, None, BLANK, false, 0), Idle)
  {
    s := Greeting();
    s := Quietly(s, Connected);
    s := Quietly(s, NextRound);
    s := Quietly(s, Clear);
    s := Quietly(s, Clear);
  }

  lemma BeingStamped() returns (s: RSys)
    ensures Reached(s) && At(s, Stamping(1), Top, Client(HelloSent, 0))
    ensures Ends(s.links[0], End(true, 0, None, CON, true, 0), End(false, 0, None, REQUEST, false, 0), RudpLink.Stamped)
  {
    s := Clearing();
    s := Calls(s, Main(Stamp), CON, REQUEST.msg);
  }

  lemma Asking() returns (s: RSys)
    ensures Reached(s) && At(s, Writing(0, {}, {}), Top, Client(HelloSent, 0))
    ensures Ends(s.links[0], End(true, 0, None, CON, true, 0), End(false, 0, None, REQUEST, false, 0), RudpLink.Stamped)
  {
    s := BeingStamped();
    s := Quietly(s, Stamp);
    s := Quietly(s, Pick(0));
  }

  /** The request is on its way and not recorded; the client has taken it. */
  lemma Asked() returns (s: RSys)
    ensures Reached(s) && At(s, Checking(0, {0}, {}), Top, Client(HelloSent, 0))
    ensures Ends(s.links[0], End(true, 1, Some(REQUEST), CON, true, 0), End(false, 0, None, REQUEST, false, 0), Sent)
  {
    s := Asking();
    s := Calls(s, Main(EndWrite), CON, CON.msg);
    assert {} + {0} == {0};
    s := Go(s, Inside(0, ClientRead(REQUEST)));
  }

  lemma Confirmed() returns (s: RSys)
    ensures Reached(s) && At(s, Checking(0, {0}, {}), Top, Client(WaitRequest, 0))
    ensures Ends(s.links[0], End(true, 1, Some(REQUEST), CON, false, 0), End(false, 0, None, REQUEST, false, 0), Sent)
  {
    s := Asked();
    s := Calls(s, Peer(0, Confirm), CON, CON.msg);
  }

  lemma Answering() returns (s: RSys)
    ensures Reached(s) && At(s, Checking(0, {0}, {}), Top, Client(Voting, 0))
    ensures Ends(s.links[0], End(true, 1, None, CON, false, 0), End(false, 0, None, REQUEST, false, 0), Sent)
  {
    s := Confirmed();
    s := Calls(s, Peer(0, Receive), CON, CON.msg);
  }

  lemma Answered() returns (s: RSys)
    ensures Reached(s) && At(s, Checking(0, {0}, {}), Top, Client(VoteSent, 1))
    ensures Ends(s.links[0], End(true, 1, None, VOTE, true, 1), End(false, 0, None, REQUEST, false, 0), Sent)
    ensures VOTE in s.links[0].toS
  {
    s := Answering();
    s := Calls(s, Peer(0, Reply), CON, VOTE.msg);
  }

  lemma Passing() returns (s: RSys)
    ensures Reached(s) && At(s, Checking(0, {0}, {}), Pass, Client(VoteSent, 1))
    ensures Ends(s.links[0], End(true, 1, None, VOTE, true, 1), End(false, 0, None, REQUEST, false, 0), Sent)
    ensures VOTE in s.links[0].toS
  {
    s := Answered();
    s := Go(s, Prog(Worker(0, SeeGo), CON, CON.msg));
  }

  /** THE RACE IN THE WHOLE PROGRAM. A worker takes the vote before main records that it has
      sent the request: main then waits for an acknowledgement that never comes. */
  lemma RaceOccursInProgram() returns (s: RSys)
    ensures ValidConfig(C) && Reached(s) && RShaped(C, s) && s.p.pc == Checking(0, {0}, {}) && RaceLost(s.links[0])
  {
    s := Passing();
    s := Calls(s, Worker(0, Fetch(0)), VOTE, CON.msg);
    s := Go(s, Inside(0, ServerRecord));
  }
}
