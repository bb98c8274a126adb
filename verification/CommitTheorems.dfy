/** What the two-phase-commit program guarantees in every state of every run over
    FIFO connections: any interleaving, any timeouts, stop_signal raised at any moment,
    clients dying at any moment. */
module CommitTheorems {
  import opened Messages
  import opened Channel
  import opened TwoPhase
  import opened FifoSystem
  import opened CommitInvariant

  /** Message k of the upward history is client i's vote of round k / 2 and says yes. */
  ghost predicate VotedYes(c: Config, s: Sys, i: nat, k: nat)
    requires i < |s.ch| && i < |c.ids|
  {
    k < |s.ch[i].up| && s.ch[i].up[k] == Msg(VoteYes, c.ids[i])
  }

  ghost predicate VotedNo(c: Config, s: Sys, i: nat, k: nat)
    requires i < |s.ch| && i < |c.ids|
  {
    k < |s.ch[i].up| && s.ch[i].up[k] == Msg(VoteNo, c.ids[i])
  }

  /** Atomic commit on a state that satisfies the invariant. */
  lemma CommitIsUnanimous(c: Config, s: Sys, j: nat, k: nat)
    requires Inv(c, s) && j < c.n && k < |s.ch[j].down|
    ensures s.ch[j].down[k].kind == Commit ==> k % 2 == 1 && forall i :: 0 <= i < c.n ==> VotedYes(c, s, i, k)
    ensures s.ch[j].down[k].kind == Cancel ==> k % 2 == 1 && exists i :: 0 <= i < c.n && VotedNo(c, s, i, k)
  {
    assert ConnInv(c, s.p, s.ch[j], j);
    var kind := s.ch[j].down[k].kind;
    assert DownMsg(s.p.decisions, k, s.ch[j].down[k]);
    if kind == Commit || kind == Cancel {
      assert k == 2 * (k / 2) + 1 && Grounded(c, s, k / 2);
    }
    if kind == Commit {
      forall i | 0 <= i < c.n ensures VotedYes(c, s, i, k) {
        assert c.vote(i, k / 2) && Cast(s, i, k / 2);
        assert ConnInv(c, s.p, s.ch[i], i);
        assert s.ch[i].up[k] == UpMsg(c, i, k);
      }
    } else if kind == Cancel {
      var i :| 0 <= i < c.n && !c.vote(i, k / 2) && Cast(s, i, k / 2);
      assert ConnInv(c, s.p, s.ch[i], i);
      assert s.ch[i].up[k] == UpMsg(c, i, k);
      assert VotedNo(c, s, i, k);
    }
  }

  /** ATOMIC COMMIT. A commit of round r (message 2r+1 on its connection) is put on a
      connection only if every client's own round-r vote was cast and was yes; a cancel
      only if some client's own round-r vote was cast and was no. */
  lemma AtomicCommit(c: Config, acts: seq<Act>, j: nat, k: nat)
    requires ValidConfig(c) && Run(c, acts).Some? && j < c.n
    requires k < |Run(c, acts).value.ch[j].down|
    ensures var s := Run(c, acts).value;
            && (s.ch[j].down[k].kind == Commit ==> k % 2 == 1 && forall i :: 0 <= i < c.n ==> VotedYes(c, s, i, k))
            && (s.ch[j].down[k].kind == Cancel ==> k % 2 == 1 && exists i :: 0 <= i < c.n && VotedNo(c, s, i, k))
  {
    RunInv(c, acts);
    CommitIsUnanimous(c, Run(c, acts).value, j, k);
  }

  /** No two connections ever carry different messages at the same position. */
  lemma NoSplitDecision(c: Config, acts: seq<Act>, i: nat, j: nat, k: nat)
    requires ValidConfig(c) && Run(c, acts).Some? && i < c.n && j < c.n
    requires k < |Run(c, acts).value.ch[i].down| && k < |Run(c, acts).value.ch[j].down|
    ensures Run(c, acts).value.ch[i].down[k] == Run(c, acts).value.ch[j].down[k]
  {
    RunInv(c, acts);
    var s := Run(c, acts).value;
    assert ConnInv(c, s.p, s.ch[i], i) && ConnInv(c, s.p, s.ch[j], j);
    assert DownMsg(s.p.decisions, k, s.ch[i].down[k]) && DownMsg(s.p.decisions, k, s.ch[j].down[k]);
  }

  /** Connection x after `r` whole rounds with nothing in flight in either direction. */
  ghost predicate Settled(c: Config, x: Chan, j: nat, decisions: seq<bool>)
    requires j < |c.ids|
  {
    var r := |decisions|;
    && |x.down| == x.downGot == 2 * r
    && |x.up| == x.upGot == 2 * r + 1
    && (forall k :: 0 <= k < r ==>
          && x.down[2 * k + 1] == Msg(if decisions[k] then Commit else Cancel, SERVER_ID)
          && x.up[2 * k + 1] == Msg(VoteKind(c, j, k), c.ids[j])
          && x.up[2 * k + 2] == Msg(Ack, c.ids[j]))
  }

  lemma BoundaryIsQuiet(c: Config, s: Sys, j: nat)
    requires Inv(c, s) && s.p.pc.RoundTop? && !s.p.cut && j < c.n
    ensures |s.p.decisions| == s.p.round
    ensures Settled(c, s.ch[j], j, s.p.decisions) && !Holding(c, s.p, j)
    ensures forall k :: 0 <= k < s.p.round ==> (s.p.decisions[k] <==> AllYes(c, k))
  {
    var x := s.ch[j];
    assert ConnInv(c, s.p, x, j);
    forall k | 0 <= k < s.p.round
      ensures x.down[2 * k + 1] == Msg(if s.p.decisions[k] then Commit else Cancel, SERVER_ID)
      ensures x.up[2 * k + 1] == Msg(VoteKind(c, j, k), c.ids[j])
      ensures x.up[2 * k + 2] == Msg(Ack, c.ids[j])
      ensures s.p.decisions[k] <==> AllYes(c, k)
    {
      assert DownMsg(s.p.decisions, 2 * k + 1, x.down[2 * k + 1]);
      assert x.up[2 * k + 1] == UpMsg(c, j, 2 * k + 1) && x.up[2 * k + 2] == UpMsg(c, j, 2 * k + 2);
      assert Grounded(c, s, k);
    }
  }

  /** AGREEMENT AND QUIESCENCE. Whenever main is back at the top of its round loop and
      stop_signal is still false, every client has received exactly the decision of every
      finished round and acknowledged it, and no vote or ack is left unread on any
      connection or unposted in any worker, whatever timed out on the way. A round
      committed iff all its votes were yes. */
  lemma AgreementAtRoundBoundary(c: Config, acts: seq<Act>, j: nat)
    requires ValidConfig(c) && Run(c, acts).Some? && j < c.n
    ensures var s := Run(c, acts).value;
            s.p.pc.RoundTop? && !s.p.stop ==>
              && |s.p.decisions| == s.p.round
              && Settled(c, s.ch[j], j, s.p.decisions) && !Holding(c, s.p, j)
              && forall k :: 0 <= k < s.p.round ==> (s.p.decisions[k] <==> AllYes(c, k))
  {
    RunInv(c, acts);
    var s := Run(c, acts).value;
    if s.p.pc.RoundTop? && !s.p.stop {
      BoundaryIsQuiet(c, s, j);
    }
  }

  /** Once main has cut a loop short on stop_signal it never sends again, so whatever its
      unfinished scans made of the round reaches nobody. */
  lemma NothingSentAfterCut(c: Config, s: Sys, a: Act)
    requires Inv(c, s) && Enabled(c, s, a) && s.p.cut
    ensures Apply(c, s, a).p.cut
    ensures forall j :: 0 <= j < c.n ==> Apply(c, s, a).ch[j].down == s.ch[j].down
  {
    var l := Effect(c, s.p, a);
    assert !l.Put?;
    forall j | 0 <= j < c.n ensures Apply(c, s, a).ch[j].down == s.ch[j].down {
      TransferAt(s.ch, l, j);
    }
  }

  lemma ExpectedKind(c: Config, s: Sys, j: nat)
    requires Inv(c, s) && j < c.n && Enabled(c, s, Peer(j, Receive))
    ensures var k := Incoming(s.ch, ClientTake(j)).kind;
            if s.p.clients[j].pc == WaitRequest then k == Request else k == Commit || k == Cancel
  {
    var x := s.ch[j];
    assert ConnInv(c, s.p, x, j);
    assert DownMsg(s.p.decisions, x.downGot, x.down[x.downGot]);
  }

  /** A client that waits for a request gets a request, one that waits for a decision gets
      a decision: it always goes on to answer and never takes its protocol-failure branch. */
  lemma ClientUnderstands(c: Config, acts: seq<Act>, j: nat)
    requires ValidConfig(c) && Run(c, acts).Some? && j < c.n
    requires Enabled(c, Run(c, acts).value, Peer(j, Receive))
    ensures var s := Run(c, acts).value;
            Apply(c, s, Peer(j, Receive)).p.clients[j].pc
              == if s.p.clients[j].pc == WaitRequest then Voting else Acking
  {
    RunInv(c, acts);
    var s := Run(c, acts).value;
    ExpectedKind(c, s, j);
    var m := Incoming(s.ch, ClientTake(j));
    assert Apply(c, s, Peer(j, Receive)).p.clients[j] == ClientStep(s.p.clients[j], Receive, m);
  }

  /** A worker that took a message holds the last one taken from one of its connections,
      and the client id in it is in range. */
  lemma WorkerUnderstands(c: Config, acts: seq<Act>, t: nat)
    requires ValidConfig(c) && Run(c, acts).Some? && t < c.workers
    requires Run(c, acts).value.p.workers[t].Got?
    ensures var s := Run(c, acts).value; var w := s.p.workers[t];
            && w.j < c.n && c.owner[w.j] == t && s.ch[w.j].upGot > 0
            && w.m == UpMsg(c, w.j, s.ch[w.j].upGot - 1) && 1 <= w.m.src <= c.n
  {
    RunInv(c, acts);
    var s := Run(c, acts).value;
    assert WorkerInv(c, s, t);
    assert ConnInv(c, s.p, s.ch[s.p.workers[t].j], s.p.workers[t].j);
  }

  /** The phase-1 scan never takes its protocol-violation branch. */
  lemma ScanUnderstands(c: Config, acts: seq<Act>)
    requires ValidConfig(c) && Run(c, acts).Some?
    ensures var p := Run(c, acts).value.p;
            p.pc.Scanning? && !p.second && p.pc.k < c.n ==> ScanVote(p.status, p.board[p.pc.k]).Some?
  {
    RunInv(c, acts);
    var p := Run(c, acts).value.p;
    if p.pc.Scanning? && !p.second && p.pc.k < c.n {
      NoProtocolViolation(c, Run(c, acts).value);
    }
  }

  /** CONNECTION PHASE. do_connectall counts messages, not connections; still it leaves its
      loop only when each of the n connections has delivered exactly its one con message. */
  lemma ConnectIsExact(c: Config, acts: seq<Act>)
    requires ValidConfig(c) && Run(c, acts).Some?
    ensures var s := Run(c, acts).value;
            s.p.pc.Connecting? ==>
              && s.p.pc.k <= c.n
              && (s.p.pc.k >= c.n <==> forall j :: 0 <= j < c.n ==> s.ch[j].upGot == 1 && s.ch[j].up == [Msg(Con, c.ids[j])])
  {
    RunInv(c, acts);
    if Run(c, acts).value.p.pc.Connecting? {
      ConnectingIsExact(c, Run(c, acts).value);
    }
  }

  lemma ConnectingIsExact(c: Config, s: Sys)
    requires Inv(c, s) && s.p.pc.Connecting?
    ensures s.p.pc.k <= c.n
    ensures s.p.pc.k >= c.n <==> forall j :: 0 <= j < c.n ==> s.ch[j].upGot == 1 && s.ch[j].up == [Msg(Con, c.ids[j])]
  {
    CardOfRange(c.n, Greeted(c, s));
    forall j | 0 <= j < c.n
      ensures s.ch[j].upGot <= |s.ch[j].up| <= 1
      ensures |s.ch[j].up| == 1 ==> s.ch[j].up == [Msg(Con, c.ids[j])]
    {
      assert ConnInv(c, s.p, s.ch[j], j);
      assert |s.ch[j].up| == 1 ==> s.ch[j].up[0] == UpMsg(c, j, 0);
    }
    if s.p.pc.k >= c.n {
      forall j | 0 <= j < c.n ensures s.ch[j].upGot == 1 && s.ch[j].up == [Msg(Con, c.ids[j])] {
        assert j in Greeted(c, s);
      }
    } else if forall j :: 0 <= j < c.n ==> s.ch[j].upGot == 1 {
      FullRange(c.n, Greeted(c, s));
    }
  }

  /** A client may exit at any moment, whatever it is doing; nothing but its own program counter
      changes, and it takes no other step ever after. */
  lemma ExitIsFinal(c: Config, p: Program, j: nat, ca: ClientAct, m: Msg)
    requires Shaped(c, p) && ValidConfig(c) && j < c.n
    ensures CanClient(c, p, j, Die) && ClientEffect(c, p, j, Die) == Tau
    ensures var q := ClientNext(c, p, j, Die, m);
            && q == p.(clients := p.clients[j := p.clients[j].(pc := Dead)])
            && (CanClient(c, q, j, ca) ==> ca == Die && ClientNext(c, q, j, ca, m) == q)
  {
  }
}
