/** How many messages can wait for a client at once. Over TCP the client still reads a
    message after it has released it, and bytes of the next one may have taken its place by
    then; so it matters whether another message can be behind the one it takes. */
module Unread {
  import opened Messages
  import opened Channel
  import opened TwoPhase
  import opened FifoSystem
  import opened CommitInvariant
  import opened VoteCount

  /** At most one message is waiting for each client. */
  ghost predicate Alone(c: Config, s: Sys) {
    forall j :: 0 <= j < c.n && j < |s.ch| ==> |s.ch[j].down| <= s.ch[j].downGot + 1
  }

  /** Before main puts a message on connection j, its client has taken all earlier ones. */
  lemma TakenBeforePut(c: Config, s: Sys, j: nat)
    requires Inv(c, s) && CountInv(c, s) && Smooth(s.p) && s.p.pc.Writing? && s.p.pc.j == j && j < c.n && j !in s.p.pc.put
    ensures |s.ch[j].down| <= s.ch[j].downGot
  {
    assert ConnInv(c, s.p, s.ch[j], j) && ConnCount(c, s.p, s.ch[j], j);
  }

  lemma StepKeepsAlone(c: Config, s: Sys, a: Act)
    requires Inv(c, s) && CountInv(c, s) && Alone(c, s) && Enabled(c, s, a) && !Apply(c, s, a).p.timedOut
    ensures Alone(c, Apply(c, s, a))
  {
    var l := Effect(c, s.p, a);
    if l.Put? {
      TakenBeforePut(c, s, l.j);
    }
    forall j | 0 <= j < c.n ensures |Apply(c, s, a).ch[j].down| <= Apply(c, s, a).ch[j].downGot + 1 {
      TransferAt(s.ch, l, j);
    }
  }

  lemma TimeoutStays(c: Config, p: Program, a: Act, m: Msg)
    requires Shaped(c, p) && Can(c, p, a)
    ensures p.timedOut ==> Next(c, p, a, m).timedOut
  {
    if a.Main? {
      MainTimeoutStays(c, p, a.ma, m);
    }
  }

  lemma MainTimeoutStays(c: Config, p: Program, a: MainAct, m: Msg)
    requires Shaped(c, p) && CanMain(c, p, a)
    ensures p.timedOut ==> MainNext(c, p, a, m).timedOut
  {
    if IsSending(a) {
      SendingCounters(c, p, a, m);
    }
  }

  /** ONE AT A TIME. As long as no wait_for_votes has timed out, no run ever has more than one
      message waiting for a client: nothing is behind the message that it takes. */
  lemma {:induction false} AloneWithoutTimeout(c: Config, acts: seq<Act>)
    requires ValidConfig(c) && Run(c, acts).Some? && !Run(c, acts).value.p.timedOut
    ensures Alone(c, Run(c, acts).value)
  {
    if acts != [] {
      var front, a := acts[..|acts| - 1], acts[|acts| - 1];
      var s := Run(c, front).value;
      TimeoutStays(c, s.p, a, Incoming(s.ch, Effect(c, s.p, a)));
      AloneWithoutTimeout(c, front);
      RunCount(c, front);
      StepKeepsAlone(c, s, a);
    }
  }

  // ------------------------------------------------- with a timeout two can be waiting

  /** Two clients and a worker; the second client votes no. */
  const C := Config(2, 1, [0, 0], [1, 2], (j: nat, r: nat) => j == 0)

  ghost predicate Reached(s: Sys) {
    exists acts :: Run(C, acts) == Some(s)
  }

  lemma Go(s: Sys, a: Act) returns (t: Sys)
    requires Reached(s) && WellShaped(C, s) && Enabled(C, s, a)
    ensures t == Apply(C, s, a) && Reached(t)
  {
    var acts :| Run(C, acts) == Some(s);
    assert (acts + [a])[..|acts + [a]| - 1] == acts;
    t := Apply(C, s, a);
    assert Run(C, acts + [a]) == Some(t);
  }

  /** A step of main that does nothing to a connection. */
  lemma Quietly(s: Sys, a: MainAct) returns (t: Sys)
    requires Reached(s) && WellShaped(C, s) && CanMain(C, s.p, a) && MainEffect(C, s.p, a) == Tau
    ensures t == s.(p := MainNext(C, s.p, a, Msg(Lost, SERVER_ID))) && Reached(t) && WellShaped(C, t)
  {
    t := Go(s, Main(a));
  }

  /** A call of the second client. */
  lemma Talks(s: Sys, a: ClientAct) returns (t: Sys)
    requires Reached(s) && WellShaped(C, s) && CanClient(C, s.p, 1, a)
    requires var l := ClientEffect(C, s.p, 1, a); l != Tau && l.j == 1 && ReadyOn(s.ch[1], l)
    ensures Reached(t) && WellShaped(C, t)
    ensures var l := ClientEffect(C, s.p, 1, a);
            && t.p == s.p.(clients := s.p.clients[1 := ClientStep(s.p.clients[1], a, Head(s.ch[1], l))])
            && t.ch[1] == Touch(s.ch[1], l) && t.ch[0] == s.ch[0]
  {
    t := Go(s, Peer(1, a));
  }

  const REQUEST := Msg(Request, SERVER_ID)
  const CANCEL := Msg(Cancel, SERVER_ID)
  const EMPTY := [Lost, Lost]
  const NO := [Lost, VoteNo]

  /** Where the run is: pc, phase and verdict of main, the second scoreboard entry, the worker,
      the second client, what is on the way to the first client and the second connection.
      The first client has at most said hello, and nobody has raised stop_signal. */
  predicate At(s: Sys, pc: MainPc, second: bool, status: Verdict, entry: Kind, worker: WorkerPc, other: Client,
               down: seq<Msg>, y: Chan)
  {
    && WellShaped(C, s) && s.p.pc == pc && s.p.second == second && s.p.status == status && !s.p.stop
    && s.p.pause == (pc.Scanning? || pc.Zeroing? || pc.Resuming?)
    && s.p.board[0] == Lost && s.p.board[1] == entry && s.p.workers[0] == worker
    && s.p.clients[0].pc == HelloSent && s.p.clients[1] == other
    && s.ch[0].down == down && s.ch[0].downGot == 0 && s.ch[1] == y
  }

  const ASKED := Chan([REQUEST], 0, [Msg(Con, 2)], 1)
  const ANSWERED := Chan([REQUEST], 1, [Msg(Con, 2), Msg(VoteNo, 2)], 2)

  lemma Hellos() returns (s: Sys)
    ensures Reached(s) && s.ch[0].up == [Msg(Con, 1)] && s.ch[0].upGot == 0
    ensures At(s, Connecting(0), false, Success, Lost, Top, Client(HelloSent, 0), [], Chan([], 0, [Msg(Con, 2)], 0))
  {
    s := FirstHello();
    s := Go(s, Peer(1, Hello));
  }

  lemma FirstHello() returns (s: Sys)
    ensures Reached(s) && WellShaped(C, s) && s.p == InitProgram(C).(clients := s.p.clients)
    ensures s.p.clients[0].pc == HelloSent && s.p.clients[1] == Client(Fresh, 0)
    ensures s.ch[0] == Chan([], 0, [Msg(Con, 1)], 0) && s.ch[1] == EMPTY_CHAN
  {
    assert Run(C, []) == Some(InitSys(C));
    s := Go(InitSys(C), Peer(0, Hello));
  }

  lemma Connections() returns (s: Sys)
    ensures Reached(s)
    ensures At(s, Connecting(2), false, Success, Lost, Top, Client(HelloSent, 0), [], Chan([], 0, [Msg(Con, 2)], 1))
  {
    s := Hellos();
    s := Go(s, Main(Connect(0)));
    s := Go(s, Main(Connect(1)));
  }

  lemma Greeting() returns (s: Sys)
    ensures Reached(s)
    ensures At(s, Clearing(0), false, Success, Lost, Top, Client(HelloSent, 0), [], Chan([], 0, [Msg(Con, 2)], 1))
  {
    s := Connections();
    s := Quietly(s, Connected);
    s := Quietly(s, NextRound);
  }

  lemma Cleared(s0: Sys, second: bool, status: Verdict, worker: WorkerPc, other: Client, down: seq<Msg>, y: Chan) returns (s: Sys)
    requires Reached(s0) && At(s0, Clearing(0), second, status, s0.p.board[1], worker, other, down, y)
    requires second ==> status != ClusterFail
    ensures Reached(s) && At(s, Stamping(0), second, status, Lost, worker, other, down, y) && s.p.timedOut == s0.p.timedOut
  {
    s := Quietly(s0, Clear);
    s := Quietly(s, Clear);
    s := Quietly(s, Clear);
  }

  lemma Stamped(s0: Sys, second: bool, status: Verdict, worker: WorkerPc, other: Client, down: seq<Msg>, y: Chan) returns (s: Sys)
    requires Reached(s0) && At(s0, Stamping(0), second, status, Lost, worker, other, down, y)
    ensures Reached(s) && At(s, Sending({}, {}), second, status, Lost, worker, other, down, y) && s.p.timedOut == s0.p.timedOut
  {
    s := Go(s0, Main(Stamp));
    s := Go(s, Main(Stamp));
    s := Go(s, Main(Stamp));
  }

  /** Main writes to connection j, which nobody else has touched meanwhile. */
  lemma Written(s0: Sys, j: nat, put: set<nat>, m: Msg) returns (s: Sys)
    requires Reached(s0) && WellShaped(C, s0) && s0.p.pc == Sending(put, put) && !s0.p.stop && j < 2 && j !in put
    requires Outgoing(s0.p) == m
    ensures Reached(s) && WellShaped(C, s) && s.p == s0.p.(pc := Checking(j, put + {j}, put))
    ensures s.ch[j] == s0.ch[j].(down := s0.ch[j].down + [m]) && s.ch[1 - j] == s0.ch[1 - j]
  {
    s := Quietly(s0, Pick(j));
    s := Go(s, Main(EndWrite));
  }

  lemma WrittenOut(s0: Sys, j: nat, put: set<nat>, m: Msg) returns (s: Sys)
    requires Reached(s0) && WellShaped(C, s0) && s0.p.pc == Sending(put, put) && !s0.p.stop && j < 2 && j !in put
    requires Outgoing(s0.p) == m
    ensures Reached(s) && WellShaped(C, s) && s.p == s0.p.(pc := Sending(put + {j}, put + {j}))
    ensures s.ch[j] == s0.ch[j].(down := s0.ch[j].down + [m]) && s.ch[1 - j] == s0.ch[1 - j]
  {
    s := Written(s0, j, put, m);
    s := Go(s, Main(Acknowledged));
  }

  lemma ReadyToSend() returns (s: Sys)
    ensures Reached(s)
    ensures At(s, Sending({}, {}), false, Success, Lost, Top, Client(HelloSent, 0), [], Chan([], 0, [Msg(Con, 2)], 1))
  {
    s := Greeting();
    s := Cleared(s, false, Success, Top, Client(HelloSent, 0), [], Chan([], 0, [Msg(Con, 2)], 1));
    s := Stamped(s, false, Success, Top, Client(HelloSent, 0), [], Chan([], 0, [Msg(Con, 2)], 1));
  }

  lemma SentFirst() returns (s: Sys)
    ensures Reached(s)
    ensures At(s, Sending({0}, {0}), false, Success, Lost, Top, Client(HelloSent, 0), [REQUEST], Chan([], 0, [Msg(Con, 2)], 1))
  {
    s := ReadyToSend();
    assert {} + {0} == {0} && [] + [REQUEST] == [REQUEST];
    s := WrittenOut(s, 0, {}, REQUEST);
  }

  lemma SentSecond() returns (s: Sys)
    ensures Reached(s)
    ensures At(s, Sending({0, 1}, {0, 1}), false, Success, Lost, Top, Client(HelloSent, 0), [REQUEST], ASKED)
  {
    s := SentFirst();
    s := WrittenOut(s, 1, {0}, REQUEST);
    assert {0} + {1} == {0, 1};
  }

  lemma BothAreAll()
    ensures AllDone(C, {0, 1})
  {
  }

  lemma AllSent() returns (s: Sys)
    ensures Reached(s)
    ensures At(s, Polling(0, 0), false, Success, Lost, Top, Client(HelloSent, 0), [REQUEST], ASKED)
  {
    s := SentSecond();
    BothAreAll();
    s := Quietly(s, SendExit);
  }

  lemma Asked() returns (s: Sys)
    ensures Reached(s)
    ensures At(s, Polling(0, 0), false, Success, Lost, Top, Client(WaitRequest, 0), [REQUEST], ASKED)
  {
    s := AllSent();
    s := Go(s, Peer(1, Confirm));
  }

  lemma Heard() returns (s: Sys)
    ensures Reached(s)
    ensures At(s, Polling(0, 0), false, Success, Lost, Top, Client(Voting, 0), [REQUEST], Chan([REQUEST], 1, [Msg(Con, 2)], 1))
  {
    s := Asked();
    s := Talks(s, Receive);
  }

  lemma Voted() returns (s: Sys)
    ensures Reached(s)
    ensures At(s, Polling(0, 0), false, Success, Lost, Pass, Client(VoteSent, 1), [REQUEST], ANSWERED.(upGot := 1))
  {
    s := Heard();
    s := Talks(s, Reply);
    s := Go(s, Worker(0, SeeGo));
  }

  lemma Fetched() returns (s: Sys)
    ensures Reached(s)
    ensures At(s, Polling(0, 0), false, Success, Lost, Got(1, Msg(VoteNo, 2)), Client(VoteSent, 1), [REQUEST], ANSWERED)
  {
    s := Voted();
    s := Go(s, Worker(0, Fetch(1)));
  }

  lemma Recorded() returns (s: Sys)
    ensures Reached(s)
    ensures At(s, Polling(0, 0), false, Success, VoteNo, Posted(1), Client(VoteSent, 1), [REQUEST], ANSWERED)
  {
    s := Fetched();
    s := Go(s, Worker(0, Post));
  }

  /** Main gives up waiting, and the no hides the missing vote below it. */
  lemma TimedOut() returns (s: Sys)
    ensures Reached(s) && s.p.timedOut
    ensures At(s, Pausing, false, Success, VoteNo, Posted(1), Client(VoteSent, 1), [REQUEST], ANSWERED)
  {
    s := Recorded();
    s := Quietly(s, Timeout);
  }

  lemma Hidden() returns (s: Sys)
    ensures Reached(s) && s.p.timedOut
    ensures At(s, Scanning(1), false, ClusterFail, VoteNo, Posted(1), Client(VoteSent, 1), [REQUEST], ANSWERED)
  {
    s := TimedOut();
    s := Quietly(s, Pause);
    s := Quietly(s, Scan);
  }

  lemma Scanned() returns (s: Sys)
    ensures Reached(s) && s.p.timedOut
    ensures At(s, Zeroing(0), false, Fail, VoteNo, Posted(1), Client(VoteSent, 1), [REQUEST], ANSWERED)
  {
    s := Hidden();
    s := Quietly(s, Scan);
    s := Quietly(s, Scan);
  }

  lemma Zeroed() returns (s: Sys)
    ensures Reached(s) && s.p.timedOut
    ensures At(s, Resuming, false, Fail, VoteNo, Posted(1), Client(VoteSent, 1), [REQUEST], ANSWERED)
  {
    s := Scanned();
    s := Quietly(s, Zero);
    s := Quietly(s, Zero);
  }

  lemma SecondPhase() returns (s: Sys)
    ensures Reached(s) && s.p.timedOut
    ensures At(s, Clearing(0), true, Fail, VoteNo, Posted(1), Client(VoteSent, 1), [REQUEST], ANSWERED)
  {
    s := Zeroed();
    s := Quietly(s, Resume);
  }

  lemma ReadyToCancel() returns (s: Sys)
    ensures Reached(s) && s.p.timedOut
    ensures At(s, Sending({}, {}), true, Fail, Lost, Posted(1), Client(VoteSent, 1), [REQUEST], ANSWERED)
  {
    s := SecondPhase();
    s := Cleared(s, true, Fail, Posted(1), Client(VoteSent, 1), [REQUEST], ANSWERED);
    s := Stamped(s, true, Fail, Posted(1), Client(VoteSent, 1), [REQUEST], ANSWERED);
  }

  lemma Cancelled() returns (s: Sys)
    ensures Reached(s) && WellShaped(C, s) && s.p.timedOut && s.p.clients[0].pc == HelloSent
    ensures s.ch[0].down == [REQUEST, CANCEL] && s.ch[0].downGot == 0
  {
    s := ReadyToCancel();
    s := Written(s, 0, {}, CANCEL);
    assert [REQUEST] + [CANCEL] == [REQUEST, CANCEL];
  }

  /** TWO AT ONCE. After a timeout the cancel can be behind a request that the client has not
      read yet, and the client then takes the request. */
  lemma TwoUnreadOccur() returns (s: Sys)
    ensures ValidConfig(C) && Reached(s) && WellShaped(C, s) && s.p.timedOut
    ensures s.ch[0].down == [REQUEST, CANCEL] && s.ch[0].downGot == 0
    ensures Enabled(C, s, Peer(0, Receive))
  {
    s := Cancelled();
    s := Go(s, Peer(0, Confirm));
  }
}
