/** The inductive invariant of the two-phase-commit program over FIFO connections.

    The whole argument is positional: message k of a connection's upward history is
    fixed by k alone (con, vote 0, ack, vote 1, ack, ...), and message k downwards is a
    request for even k and the decision of round k / 2 for odd k. The round invariant
    then only relates lengths of histories to the coordinator's program counter. */
module CommitInvariant {
  import opened Messages
  import opened Channel
  import opened TwoPhase
  import opened FifoSystem

  // ------------------------------------------------------------------ vocabulary

  ghost predicate AllYes(c: Config, r: nat) {
    forall j :: 0 <= j < c.n ==> c.vote(j, r)
  }

  function VoteKind(c: Config, j: nat, r: nat): Kind {
    if c.vote(j, r) then VoteYes else VoteNo
  }

  /** The k-th message client j ever sends. */
  function UpMsg(c: Config, j: nat, k: nat): Msg
    requires j < |c.ids|
  {
    Msg(if k == 0 then Con else if k % 2 == 1 then VoteKind(c, j, k / 2) else Ack, c.ids[j])
  }

  /** `m` may be message k on the way down. */
  predicate DownMsg(decisions: seq<bool>, k: nat, m: Msg) {
    if k % 2 == 0 then m == Msg(Request, SERVER_ID)
    else k / 2 < |decisions| && m == Msg(if decisions[k / 2] then Commit else Cancel, SERVER_ID)
  }

  predicate Holding(c: Config, p: Program, j: nat)
    requires ValidConfig(c) && Shaped(c, p) && j < c.n
  {
    p.workers[c.owner[j]].Got? && p.workers[c.owner[j]].j == j
  }

  function Entry(c: Config, p: Program, j: nat): Kind
    requires ValidConfig(c) && Shaped(c, p) && j < c.n
  {
    p.board[c.ids[j] - 1]
  }

  function PutSet(pc: MainPc): set<nat> {
    if pc.Sending? || pc.Writing? || pc.Checking? then pc.put else {}
  }

  /** The position of the message that the current phase sends. */
  function Base(p: Program): nat {
    2 * p.round + if p.second then 1 else 0
  }

  /** How many messages are on connection j by now. */
  function DownLen(p: Program, j: nat): nat {
    match p.pc
    case Connecting(_) => 0
    case RoundTop | Clearing(_) | Stamping(_) | Halted => Base(p)
    case Sending(_, _) | Writing(_, _, _) | Checking(_, _, _) => Base(p) + if j in PutSet(p.pc) then 1 else 0
    case _ => Base(p) + 1
  }

  /** How many scoreboard entries the phase-1 scan has seen. */
  function ScannedVotes(c: Config, p: Program): nat {
    if p.second then c.n
    else match p.pc
      case Scanning(k) => k
      case Zeroing(_) | Resuming => c.n
      case _ => 0
  }

  function ScannedAcks(c: Config, p: Program): nat {
    if !p.second then 0
    else match p.pc
      case Scanning(k) => k
      case Zeroing(_) | Resuming => c.n
      case _ => 0
  }

  // ------------------------------------------------------------------- invariant

  predicate BeforeScan(pc: MainPc) {
    pc.Clearing? || pc.Stamping? || pc.Sending? || pc.Writing? || pc.Checking? || pc.Polling? || pc.Pausing?
  }

  /** Bounds of the program counters and what the flags mean. */
  predicate Flags(c: Config, p: Program) {
    && (p.cut ==> p.stop)
    && (p.pc.Connecting? || p.pc.RoundTop? ==> !p.second)
    && (p.pc.Connecting? ==> p.round == 0 && !p.cut)
    && (p.pc.Clearing? || p.pc.Stamping? || p.pc.Scanning? ==> p.pc.k <= c.n)
    && (p.pc.Writing? || p.pc.Checking? ==> !p.cut && p.pc.j < c.n && p.pc.j !in p.pc.done)
    && (p.pc.Checking? ==> p.pc.j in p.pc.put)
    && (p.pc.Sending? || p.pc.Writing? || p.pc.Checking? ==> p.pc.done <= p.pc.put)
    && (!p.second && BeforeScan(p.pc) ==> p.status == Success)
    && (p.second && !p.pc.Clearing? && !p.pc.Halted? ==> p.status != ClusterFail)
    && |p.decisions| <= p.round + 1
    && (!p.cut && !p.pc.Halted? ==>
          && |p.decisions| == p.round + (if p.second && !p.pc.Clearing? then 1 else 0)
          && (p.second && !p.pc.Clearing? ==> p.decisions[p.round] == (p.status == Success)))
  }

  /** Client j has cast its vote of round r. */
  predicate Cast(s: Sys, j: nat, r: nat)
    requires j < |s.ch|
  {
    |s.ch[j].up| >= 2 * r + 2
  }

  ghost predicate NoVoter(c: Config, s: Sys, r: nat) {
    exists j :: 0 <= j < c.n && j < |s.ch| && !c.vote(j, r) && Cast(s, j, r)
  }

  /** Decision k is commit iff all clients vote yes, and the votes it rests on were cast. */
  ghost predicate Grounded(c: Config, s: Sys, k: nat)
    requires k < |s.p.decisions|
  {
    if s.p.decisions[k] then forall j :: 0 <= j < c.n && j < |s.ch| ==> c.vote(j, k) && Cast(s, j, k)
    else NoVoter(c, s, k)
  }

  ghost predicate History(c: Config, s: Sys) {
    && (forall k :: 0 <= k < |s.p.decisions| ==> Grounded(c, s, k))
    && (!s.p.cut && s.p.status == Fail && !s.p.pc.Connecting? && !s.p.pc.RoundTop? && !s.p.pc.Halted?
        ==> NoVoter(c, s, s.p.round))
  }

  /** The histories of connection j have the right messages at every position. */
  ghost predicate Traffic(c: Config, decisions: seq<bool>, x: Chan, j: nat)
    requires j < |c.ids|
  {
    && x.upGot <= |x.up| && x.downGot <= |x.down|
    && (forall k :: 0 <= k < |x.up| ==> x.up[k] == UpMsg(c, j, k))
    && (forall k :: 0 <= k < |x.down| ==> DownMsg(decisions, k, x.down[k]))
  }

  /** A client answers every message before it takes the next one. */
  predicate ClientTurn(cl: Client, x: Chan) {
    match cl.pc
    case Fresh => |x.up| == 0 && x.downGot == 0 && cl.votes == 0
    case HelloSent => |x.up| == 1 && x.downGot == 0 && cl.votes == 0
    case WaitRequest | AckSent => |x.up| == 2 * cl.votes + 1 && x.downGot == 2 * cl.votes
    case Voting => |x.up| == 2 * cl.votes + 1 && x.downGot == 2 * cl.votes + 1
    case VoteSent | WaitDecision => |x.up| == 2 * cl.votes && x.downGot == 2 * cl.votes - 1
    case Acking => cl.votes > 0 && |x.up| == 2 * cl.votes && x.downGot == 2 * cl.votes
    case Dead => x.downGot <= |x.up| <= x.downGot + 1
  }

  /** All that the round invariant of one connection depends on: where main is, the
      scoreboard entry of the client and whether a worker holds an unposted message. */
  datatype Look = Look(
    active: bool, cut: bool, idle: bool, second: bool, round: nat, downLen: nat,
    early: bool, cleared: bool, holding: bool, entry: Kind,
    yesSoFar: bool, ackSoFar: bool)

  function LookAt(c: Config, p: Program, j: nat): Look
    requires ValidConfig(c) && Shaped(c, p) && j < c.n
  {
    Look(!p.pc.Halted?, p.cut, p.pc.Connecting? || (p.cut && p.pc.RoundTop?), p.second, p.round, DownLen(p, j),
         p.pc.RoundTop? || p.pc.Clearing?, p.pc.Clearing? && c.ids[j] - 1 < p.pc.k,
         Holding(c, p, j), Entry(c, p, j),
         p.status == Success && c.ids[j] - 1 < ScannedVotes(c, p),
         p.ok && c.ids[j] - 1 < ScannedAcks(c, p))
  }

  /** The scoreboard entry against what was taken from the connection. */
  predicate Posting(l: Look, x: Chan, yes: bool) {
    var r := 2 * l.round;
    if l.second then
      && x.upGot >= r + 1
      && (l.holding ==> x.upGot >= r + 2)
      && (l.entry == Ack <==> x.upGot == r + 3 && !l.holding)
    else if l.early then
      && x.upGot == r + 1 && !l.holding
      && (l.cleared ==> l.entry == Lost)
    else
      && x.upGot >= r + 1
      && (l.holding ==> x.upGot == r + 2)
      && l.entry == if x.upGot == r + 2 && !l.holding then (if yes then VoteYes else VoteNo) else Lost
  }

  /** What the scans have established about the client. */
  predicate Scanned(l: Look, x: Chan, yes: bool) {
    && (l.yesSoFar ==> yes && x.upGot >= 2 * l.round + 2)
    && (l.ackSoFar ==> x.upGot == 2 * l.round + 3 && !l.holding)
  }

  /** Once main has acted on stop_signal it sends no more, so a connection may be behind, and
      the scans establish nothing; what was posted still matches what was taken, until main
      is back at the round loop, which it then leaves. */
  predicate Fits(l: Look, x: Chan, yes: bool) {
    l.active ==>
      && (if l.cut then |x.down| <= l.downLen else |x.down| == l.downLen)
      && (!l.idle ==> Posting(l, x, yes))
      && (!l.idle && !l.cut ==> Scanned(l, x, yes))
  }

  /** The invariant of one connection: its histories are right at every position, it is the
      client's turn that the client's program counter says, and it is where main has it. */
  ghost predicate ConnInv(c: Config, p: Program, x: Chan, j: nat)
    requires ValidConfig(c) && Shaped(c, p) && j < c.n
  {
    && Traffic(c, p.decisions, x, j)
    && ClientTurn(p.clients[j], x)
    && Fits(LookAt(c, p, j), x, c.vote(j, p.round))
  }

  predicate WorkerInv(c: Config, s: Sys, t: nat)
    requires ValidConfig(c) && WellShaped(c, s) && t < c.workers
  {
    var w := s.p.workers[t];
    && (s.p.pc.Connecting? ==> w.Top?)
    && (w.Got? || w.Posted? || w.Released? || w.Adding? ==> w.j < c.n && c.owner[w.j] == t)
    && (w.Got? ==> 0 < s.ch[w.j].upGot <= |s.ch[w.j].up| && w.m == s.ch[w.j].up[s.ch[w.j].upGot - 1])
  }

  ghost function Greeted(c: Config, s: Sys): set<nat> {
    set j | 0 <= j < c.n && j < |s.ch| && s.ch[j].upGot > 0
  }

  ghost predicate Inv(c: Config, s: Sys) {
    && ValidConfig(c) && WellShaped(c, s)
    && Flags(c, s.p) && History(c, s)
    && (forall j :: 0 <= j < c.n ==> ConnInv(c, s.p, s.ch[j], j))
    && (forall t :: 0 <= t < c.workers ==> WorkerInv(c, s, t))
    && (s.p.pc.Connecting? ==> s.p.pc.k == |Greeted(c, s)|)
  }

  // ---------------------------------------------------------------- preservation

  lemma InitInv(c: Config)
    requires ValidConfig(c)
    ensures Inv(c, InitSys(c))
  {
    var s := InitSys(c);
    assert Greeted(c, s) == {};
  }

  /** Histories only grow, so what a decision rests on stays. */
  lemma HistoryStays(c: Config, s: Sys, s': Sys)
    requires Inv(c, s) && WellShaped(c, s')
    requires s.p.decisions <= s'.p.decisions
    requires forall j :: 0 <= j < c.n ==> |s.ch[j].up| <= |s'.ch[j].up|
    ensures forall k :: 0 <= k < |s.p.decisions| ==> Grounded(c, s', k)
    ensures forall r: nat :: NoVoter(c, s, r) ==> NoVoter(c, s', r)
  {
    forall r: nat | NoVoter(c, s, r) ensures NoVoter(c, s', r) {
      var j :| 0 <= j < c.n && !c.vote(j, r) && Cast(s, j, r);
      assert Cast(s', j, r);
    }
    forall k | 0 <= k < |s.p.decisions| ensures Grounded(c, s', k) {
      assert Grounded(c, s, k);
      if s.p.decisions[k] {
        forall j | 0 <= j < c.n ensures c.vote(j, k) && Cast(s', j, k) {
          assert Cast(s, j, k);
        }
      }
    }
  }

  lemma CardOfRange(n: nat, a: set<nat>)
    requires forall j :: j in a ==> j < n
    ensures |a| <= n
    ensures |a| == n ==> forall j :: 0 <= j < n ==> j in a
  {
    if n > 0 {
      var b := a - {n - 1};
      CardOfRange(n - 1, b);
      assert n - 1 !in a ==> b == a;
      forall j | 0 <= j < n && |a| == n ensures j in a {
        assert j < n - 1 ==> j in b;
      }
    }
  }

  lemma {:induction false} FullRange(n: nat, a: set<nat>)
    requires forall j :: 0 <= j < n ==> j in a
    ensures |a| >= n
  {
    if n > 0 {
      FullRange(n - 1, a - {n - 1});
    }
  }

  /** The scoreboard entries of the first m clients. */
  ghost function UsedEntries(c: Config, m: nat): set<nat>
    requires ValidConfig(c) && m <= c.n
  {
    if m == 0 then {} else UsedEntries(c, m - 1) + {c.ids[m - 1] - 1}
  }

  lemma {:induction false} UserOfEntry(c: Config, m: nat, e: nat) returns (j: nat)
    requires ValidConfig(c) && m <= c.n && e in UsedEntries(c, m)
    ensures j < m && c.ids[j] - 1 == e
  {
    if e == c.ids[m - 1] - 1 {
      j := m - 1;
    } else {
      j := UserOfEntry(c, m - 1, e);
    }
  }

  /** Ids are distinct and in 1..n, so every scoreboard entry has its client. */
  lemma {:induction false} OwnerOfEntry(c: Config, k: nat) returns (j: nat)
    requires ValidConfig(c) && k < c.n
    ensures j < c.n && c.ids[j] == k + 1
  {
    IdsAreMany(c, c.n);
    CardOfRange(c.n, UsedEntries(c, c.n));
    j := UserOfEntry(c, c.n, k);
  }

  lemma {:induction false} IdsAreMany(c: Config, m: nat)
    requires ValidConfig(c) && m <= c.n
    ensures |UsedEntries(c, m)| == m
    ensures forall e :: e in UsedEntries(c, m) ==> e < c.n
  {
    if m > 0 {
      IdsAreMany(c, m - 1);
      if c.ids[m - 1] - 1 in UsedEntries(c, m - 1) {
        var j := UserOfEntry(c, m - 1, c.ids[m - 1] - 1);
        assert false;
      }
    }
  }

  predicate IsSending(a: MainAct) {
    a.Stamp? || a.Pick? || a.EndWrite? || a.Acknowledged? || a.Again? || a.SendExit?
  }

  lemma SendingFlags(c: Config, p: Program, a: MainAct, m: Msg)
    requires Shaped(c, p) && Flags(c, p) && CanMain(c, p, a) && IsSending(a)
    ensures Flags(c, MainNext(c, p, a, m))
  {
  }

  lemma ScanFlags(c: Config, p: Program, a: MainAct, m: Msg)
    requires Shaped(c, p) && Flags(c, p) && CanMain(c, p, a) && (a.Scan? || a.Resume?)
    ensures Flags(c, MainNext(c, p, a, m))
  {
  }

  lemma ClearFlags(c: Config, p: Program, a: MainAct, m: Msg)
    requires Shaped(c, p) && Flags(c, p) && CanMain(c, p, a) && (a.Clear? || a.NextRound?)
    ensures Flags(c, MainNext(c, p, a, m))
  {
  }

  lemma OtherFlags(c: Config, p: Program, a: MainAct, m: Msg)
    requires Shaped(c, p) && Flags(c, p) && CanMain(c, p, a)
    requires !IsSending(a) && !(a.Scan? || a.Clear? || a.Resume? || a.NextRound?)
    ensures Flags(c, MainNext(c, p, a, m))
  {
  }

  // -------------------------------------------------- one connection, steps of main

  /** A message that main sends continues the downward history correctly. */
  lemma OutgoingFits(c: Config, p: Program, x: Chan, j: nat)
    requires ValidConfig(c) && Shaped(c, p) && Flags(c, p) && j < c.n && ConnInv(c, p, x, j)
    requires p.pc.Writing? && p.pc.j == j && j !in p.pc.put
    ensures |x.down| == Base(p) && DownMsg(p.decisions, |x.down|, Outgoing(p))
  {
  }

  /** The first end_write on connection j. */
  lemma MainPuts(c: Config, p: Program, m: Msg, x: Chan, j: nat)
    requires ValidConfig(c) && Shaped(c, p) && Flags(c, p) && j < c.n && ConnInv(c, p, x, j)
    requires p.pc.Writing? && p.pc.j == j && j !in p.pc.put
    ensures ConnInv(c, MainNext(c, p, EndWrite, m), x.(down := x.down + [Outgoing(p)]), j)
  {
    OutgoingFits(c, p, x, j);
  }

  lemma MainWrites(c: Config, p: Program, m: Msg, x: Chan, j: nat)
    requires ValidConfig(c) && Shaped(c, p) && Flags(c, p) && j < c.n && ConnInv(c, p, x, j)
    requires CanMain(c, p, EndWrite)
    ensures var l := MainEffect(c, p, EndWrite);
            ConnInv(c, MainNext(c, p, EndWrite, m), if l == Tau || l.j != j then x else Touch(x, l), j)
  {
    if p.pc.j == j && j !in p.pc.put {
      MainPuts(c, p, m, x, j);
    }
  }

  lemma MainSends(c: Config, p: Program, a: MainAct, m: Msg, x: Chan, j: nat)
    requires ValidConfig(c) && Shaped(c, p) && Flags(c, p) && j < c.n && ConnInv(c, p, x, j) && CanMain(c, p, a)
    requires a.Stamp? || a.SendExit?
    ensures ConnInv(c, MainNext(c, p, a, m), x, j)
  {
  }

  lemma MainChecks(c: Config, p: Program, a: MainAct, m: Msg, x: Chan, j: nat)
    requires ValidConfig(c) && Shaped(c, p) && Flags(c, p) && j < c.n && ConnInv(c, p, x, j) && CanMain(c, p, a)
    requires a.Pick? || a.Acknowledged? || a.Again? || a.Broken?
    ensures ConnInv(c, MainNext(c, p, a, m), x, j)
  {
  }

  lemma MainPolls(c: Config, p: Program, a: MainAct, m: Msg, x: Chan, j: nat)
    requires ValidConfig(c) && Shaped(c, p) && Flags(c, p) && j < c.n && ConnInv(c, p, x, j) && CanMain(c, p, a)
    requires a.Poll?
    ensures ConnInv(c, MainNext(c, p, a, m), x, j)
  {
  }

  lemma MainPauses(c: Config, p: Program, a: MainAct, m: Msg, x: Chan, j: nat)
    requires ValidConfig(c) && Shaped(c, p) && Flags(c, p) && j < c.n && ConnInv(c, p, x, j) && CanMain(c, p, a)
    requires a.Pause? || a.Timeout?
    ensures ConnInv(c, MainNext(c, p, a, m), x, j)
  {
  }

  lemma MainZeroes(c: Config, p: Program, a: MainAct, m: Msg, x: Chan, j: nat)
    requires ValidConfig(c) && Shaped(c, p) && Flags(c, p) && j < c.n && ConnInv(c, p, x, j) && CanMain(c, p, a)
    requires a.Zero?
    ensures ConnInv(c, MainNext(c, p, a, m), x, j)
  {
  }

  lemma MainEndsScan(c: Config, p: Program, m: Msg, x: Chan, j: nat)
    requires ValidConfig(c) && Shaped(c, p) && Flags(c, p) && j < c.n && ConnInv(c, p, x, j)
    requires p.pc.Scanning? && (p.pc.k >= c.n || p.stop)
    ensures ConnInv(c, MainNext(c, p, Scan, m), x, j)
  {
  }

  lemma MainScansVotes(c: Config, p: Program, m: Msg, x: Chan, j: nat)
    requires ValidConfig(c) && Shaped(c, p) && Flags(c, p) && j < c.n && ConnInv(c, p, x, j)
    requires p.pc.Scanning? && p.pc.k < c.n && !p.stop && !p.second
    ensures ConnInv(c, MainNext(c, p, Scan, m), x, j)
  {
  }

  lemma MainScansAcks(c: Config, p: Program, m: Msg, x: Chan, j: nat)
    requires ValidConfig(c) && Shaped(c, p) && Flags(c, p) && j < c.n && ConnInv(c, p, x, j)
    requires p.pc.Scanning? && p.pc.k < c.n && !p.stop && p.second
    ensures ConnInv(c, MainNext(c, p, Scan, m), x, j)
  {
  }

  lemma MainTurns(c: Config, p: Program, a: MainAct, m: Msg, x: Chan, j: nat)
    requires ValidConfig(c) && Shaped(c, p) && Flags(c, p) && j < c.n && ConnInv(c, p, x, j) && CanMain(c, p, a)
    requires a.NextRound? || a.Resume?
    ensures ConnInv(c, MainNext(c, p, a, m), x, j)
  {
  }

  /** One more scoreboard entry is cleared. */
  lemma MainClears(c: Config, p: Program, m: Msg, x: Chan, j: nat)
    requires ValidConfig(c) && Shaped(c, p) && Flags(c, p) && j < c.n && ConnInv(c, p, x, j)
    requires p.pc.Clearing? && p.pc.k < c.n
    ensures ConnInv(c, MainNext(c, p, Clear, m), x, j)
  {
  }

  /** The scoreboard is clear. */
  lemma MainCleared(c: Config, p: Program, m: Msg, x: Chan, j: nat)
    requires ValidConfig(c) && Shaped(c, p) && Flags(c, p) && j < c.n && ConnInv(c, p, x, j)
    requires p.pc.Clearing? && p.pc.k >= c.n && !p.second
    ensures ConnInv(c, MainNext(c, p, Clear, m), x, j)
  {
  }

  /** The scoreboard is clear in phase 2 and the decision is entered. */
  lemma MainDecides(c: Config, p: Program, m: Msg, x: Chan, j: nat)
    requires ValidConfig(c) && Shaped(c, p) && Flags(c, p) && j < c.n && ConnInv(c, p, x, j)
    requires p.pc.Clearing? && p.pc.k >= c.n && p.second
    ensures ConnInv(c, MainNext(c, p, Clear, m), x, j)
  {
    MoreDecisions(c, p.decisions, ClearStep(c, p).decisions, x, j);
  }

  /** Further decisions do not change what the messages so far may be. */
  lemma MoreDecisions(c: Config, d: seq<bool>, d': seq<bool>, x: Chan, j: nat)
    requires j < |c.ids| && Traffic(c, d, x, j) && d <= d'
    ensures Traffic(c, d', x, j)
  {
  }

  /** Leaving do_connectall: every client has said hello, no worker runs yet. */
  lemma MainStarts(c: Config, p: Program, m: Msg, x: Chan, j: nat)
    requires ValidConfig(c) && Shaped(c, p) && Flags(c, p) && j < c.n && ConnInv(c, p, x, j) && CanMain(c, p, Connected)
    requires x.upGot > 0 && !Holding(c, p, j)
    ensures ConnInv(c, MainNext(c, p, Connected, m), x, j)
  {
  }

  lemma MainGreets(c: Config, p: Program, i: nat, x: Chan, j: nat)
    requires ValidConfig(c) && Shaped(c, p) && Flags(c, p) && j < c.n && ConnInv(c, p, x, j)
    requires CanMain(c, p, Connect(i)) && (i == j ==> x.upGot < |x.up|)
    ensures ConnInv(c, MainNext(c, p, Connect(i), Msg(Con, c.ids[j])), if i != j then x else x.(upGot := x.upGot + 1), j)
  {
  }

  // --------------------------------------------- one connection, workers and clients

  /** Steps of worker t, seen from connection j. */
  lemma WorkerFetches(c: Config, p: Program, t: nat, m: Msg, x: Chan, j: nat)
    requires ValidConfig(c) && Shaped(c, p) && j < c.n && ConnInv(c, p, x, j) && CanWorker(c, p, t, Fetch(j))
    requires x.upGot < |x.up|
    ensures ConnInv(c, WorkerNext(c, p, t, Fetch(j), m), x.(upGot := x.upGot + 1), j)
  {
    var look := LookAt(c, p, j);
    assert LookAt(c, WorkerNext(c, p, t, Fetch(j), m), j) == look.(holding := true);
    FetchFits(look, p.clients[j], x, c.vote(j, p.round));
  }

  lemma FetchesElsewhere(c: Config, p: Program, t: nat, i: nat, m: Msg, x: Chan, j: nat)
    requires ValidConfig(c) && Shaped(c, p) && j < c.n && ConnInv(c, p, x, j) && CanWorker(c, p, t, Fetch(i)) && i != j
    ensures ConnInv(c, WorkerNext(c, p, t, Fetch(i), m), x, j)
  {
    assert LookAt(c, WorkerNext(c, p, t, Fetch(i), m), j) == LookAt(c, p, j);
  }

  lemma FetchFits(l: Look, cl: Client, x: Chan, yes: bool)
    requires Fits(l, x, yes) && ClientTurn(cl, x) && x.upGot < |x.up| && x.downGot <= |x.down|
    requires l.active && !l.idle ==> !l.holding && l.downLen <= 2 * l.round + if l.second then 2 else if l.early then 0 else 1
    ensures Fits(l.(holding := true), x.(upGot := x.upGot + 1), yes)
  {
  }

  lemma WorkerPosts(c: Config, p: Program, t: nat, a: WorkerAct, m: Msg, x: Chan, j: nat)
    requires ValidConfig(c) && Shaped(c, p) && j < c.n && ConnInv(c, p, x, j) && CanWorker(c, p, t, a)
    requires a.Post? && var w := p.workers[t];
               && w.j < c.n && c.owner[w.j] == t && w.m.src == c.ids[w.j]
               && (w.j == j ==> x.upGot > 0 && w.m == x.up[x.upGot - 1])
    ensures ConnInv(c, WorkerNext(c, p, t, a, m), x, j)
  {
  }

  lemma WorkerMoves(c: Config, p: Program, t: nat, a: WorkerAct, m: Msg, x: Chan, j: nat)
    requires ValidConfig(c) && Shaped(c, p) && j < c.n && ConnInv(c, p, x, j) && CanWorker(c, p, t, a)
    requires !a.Fetch? && !a.Post?
    ensures var l := WorkerEffect(c, p, t, a);
            ConnInv(c, WorkerNext(c, p, t, a, m), if l == Tau || l.j != j then x else Touch(x, l), j)
  {
  }

  /** What a client sends next is what is due at that place of its history. */
  lemma ClientMessage(c: Config, p: Program, a: ClientAct, x: Chan, j: nat)
    requires ValidConfig(c) && Shaped(c, p) && j < c.n && CanClient(c, p, j, a) && ClientTurn(p.clients[j], x)
    ensures var l := ClientEffect(c, p, j, a); l.ClientPut? ==> l.m == UpMsg(c, j, |x.up|)
  {
  }

  /** Client j takes the message at the front of its connection. */
  lemma ClientReceives(c: Config, p: Program, m: Msg, x: Chan, j: nat)
    requires ValidConfig(c) && Shaped(c, p) && j < c.n && ConnInv(c, p, x, j) && CanClient(c, p, j, Receive)
    requires ReadyOn(x, ClientTake(j))
    ensures ConnInv(c, ClientNext(c, p, j, Receive, m), Touch(x, ClientTake(j)), j)
  {
    assert LookAt(c, ClientNext(c, p, j, Receive, m), j) == LookAt(c, p, j);
  }

  lemma OneMoreUp(c: Config, decisions: seq<bool>, x: Chan, j: nat)
    requires j < |c.ids| && Traffic(c, decisions, x, j)
    ensures Traffic(c, decisions, x.(up := x.up + [UpMsg(c, j, |x.up|)]), j)
  {
  }

  /** Client j puts its next message, the one due there, on its own connection. */
  lemma ClientPuts(c: Config, p: Program, a: ClientAct, m: Msg, x: Chan, j: nat)
    requires ValidConfig(c) && Shaped(c, p) && j < c.n && ConnInv(c, p, x, j) && CanClient(c, p, j, a) && (a.Hello? || a.Reply?)
    ensures ConnInv(c, ClientNext(c, p, j, a, m), Touch(x, ClientEffect(c, p, j, a)), j)
  {
    ClientMessage(c, p, a, x, j);
    OneMoreUp(c, p.decisions, x, j);
    assert LookAt(c, ClientNext(c, p, j, a, m), j) == LookAt(c, p, j);
  }

  /** The other steps of client j leave its connection as it is. */
  lemma ClientMoves(c: Config, p: Program, a: ClientAct, m: Msg, x: Chan, j: nat)
    requires ValidConfig(c) && Shaped(c, p) && j < c.n && ConnInv(c, p, x, j) && CanClient(c, p, j, a) && (a.Confirm? || a.Die?)
    ensures ConnInv(c, ClientNext(c, p, j, a, m), x, j)
  {
    assert LookAt(c, ClientNext(c, p, j, a, m), j) == LookAt(c, p, j);
  }

  /** Steps of client j on its own connection, except taking a message. */
  lemma ClientSteps(c: Config, p: Program, a: ClientAct, m: Msg, x: Chan, j: nat)
    requires ValidConfig(c) && Shaped(c, p) && j < c.n && ConnInv(c, p, x, j) && CanClient(c, p, j, a) && a != Receive
    ensures var l := ClientEffect(c, p, j, a);
            ConnInv(c, ClientNext(c, p, j, a, m), if l == Tau then x else Touch(x, l), j)
  {
    if a.Hello? || a.Reply? {
      ClientPuts(c, p, a, m, x, j);
    } else {
      ClientMoves(c, p, a, m, x, j);
    }
  }

  // ----------------------------------------------------------------- the whole state

  /** Every connection other than the one a label names is untouched. */
  lemma TransferAt(ch: seq<Chan>, l: Label, j: nat)
    requires Ready(ch, l) && j < |ch|
    ensures Transfer(ch, l)[j] == if l == Tau || l.j != j then ch[j] else Touch(ch[j], l)
  {
  }

  lemma ConnectConn(c: Config, s: Sys, a: MainAct, j: nat)
    requires Inv(c, s) && Enabled(c, s, Main(a)) && j < c.n && (a.Connect? || a.Connected?)
    ensures ConnInv(c, Apply(c, s, Main(a)).p, Apply(c, s, Main(a)).ch[j], j)
  {
    assert ConnInv(c, s.p, s.ch[j], j);
    TransferAt(s.ch, MainEffect(c, s.p, a), j);
    if a.Connect? {
      HelloIsNext(c, s, a.j);
      MainGreets(c, s.p, a.j, s.ch[j], j);
    } else {
      CardOfRange(c.n, Greeted(c, s));
      assert j in Greeted(c, s);
      assert WorkerInv(c, s, c.owner[j]);
      MainStarts(c, s.p, Msg(Lost, SERVER_ID), s.ch[j], j);
    }
  }

  lemma MainSteps(c: Config, p: Program, a: MainAct, m: Msg, x: Chan, j: nat)
    requires ValidConfig(c) && Shaped(c, p) && Flags(c, p) && j < c.n && ConnInv(c, p, x, j)
    requires CanMain(c, p, a) && !a.Connect? && !a.Connected?
    ensures var l := MainEffect(c, p, a); ConnInv(c, MainNext(c, p, a, m), if l.Put? && l.j == j then Touch(x, l) else x, j)
  {
    match a
    case EndWrite => MainWrites(c, p, m, x, j);
    case Stamp => MainSends(c, p, a, m, x, j);
    case SendExit => MainSends(c, p, a, m, x, j);
    case NextRound => MainTurns(c, p, a, m, x, j);
    case Resume => MainTurns(c, p, a, m, x, j);
    case Clear =>
      if p.pc.k < c.n {
        MainClears(c, p, m, x, j);
      } else if p.second {
        MainDecides(c, p, m, x, j);
      } else {
        MainCleared(c, p, m, x, j);
      }
    case Poll => MainPolls(c, p, a, m, x, j);
    case Timeout => MainPauses(c, p, a, m, x, j);
    case Pause => MainPauses(c, p, a, m, x, j);
    case Scan =>
      if p.pc.k >= c.n || p.stop {
        MainEndsScan(c, p, m, x, j);
      } else if p.second {
        MainScansAcks(c, p, m, x, j);
      } else {
        MainScansVotes(c, p, m, x, j);
      }
    case Zero => MainZeroes(c, p, a, m, x, j);
    case _ => MainChecks(c, p, a, m, x, j);
  }

  lemma MainConn(c: Config, s: Sys, a: MainAct, j: nat)
    requires ValidConfig(c) && WellShaped(c, s) && Flags(c, s.p) && j < c.n && ConnInv(c, s.p, s.ch[j], j)
    requires Enabled(c, s, Main(a)) && !a.Connect? && !a.Connected?
    ensures ConnInv(c, Apply(c, s, Main(a)).p, Apply(c, s, Main(a)).ch[j], j)
  {
    var l := MainEffect(c, s.p, a);
    TransferAt(s.ch, l, j);
    MainSteps(c, s.p, a, Incoming(s.ch, l), s.ch[j], j);
  }

  /** While main is connecting, what it takes from a connection is that client's hello. */
  lemma HelloIsNext(c: Config, s: Sys, i: nat)
    requires Inv(c, s) && Enabled(c, s, Main(Connect(i)))
    ensures s.ch[i].upGot == 0 && Incoming(s.ch, Drain(i)) == Msg(Con, c.ids[i])
  {
    assert ConnInv(c, s.p, s.ch[i], i);
  }

  predicate StatusCounts(pc: MainPc) {
    !pc.Connecting? && !pc.RoundTop? && !pc.Halted?
  }

  /** The one step that enters a decision. */
  predicate Decides(p: Program, a: MainAct) {
    a == Clear && p.pc.Clearing? && p.second && !p.cut && p.status != ClusterFail
  }

  // What a step of main can do to the decisions and to a status of "fail".

  lemma DecisionSteps(c: Config, p: Program, a: MainAct, m: Msg)
    requires Shaped(c, p) && CanMain(c, p, a)
    ensures var d := MainNext(c, p, a, m).decisions;
            d == p.decisions || (Decides(p, a) && d == p.decisions + [p.status == Success])
  {
    if !a.Clear? {
      OthersKeepDecisions(c, p, a, m);
    }
  }

  lemma SendingKeeps(c: Config, p: Program, a: MainAct, m: Msg)
    requires Shaped(c, p) && CanMain(c, p, a) && IsSending(a)
    ensures var q := MainNext(c, p, a, m); q.decisions == p.decisions && q.workers == p.workers
  {
    match a
    case Stamp =>
    case Pick(_) =>
    case EndWrite =>
    case Acknowledged =>
    case Again =>
    case SendExit =>
  }

  lemma OthersKeepDecisions(c: Config, p: Program, a: MainAct, m: Msg)
    requires Shaped(c, p) && CanMain(c, p, a) && !a.Clear?
    ensures MainNext(c, p, a, m).decisions == p.decisions
  {
    if IsSending(a) {
      SendingKeeps(c, p, a, m);
    }
  }

  lemma StatusSteps(c: Config, p: Program, a: MainAct, m: Msg)
    requires Shaped(c, p) && CanMain(c, p, a)
    ensures var q := MainNext(c, p, a, m);
            q.status == Fail && StatusCounts(q.pc) ==>
              && q.round == p.round
              && ((p.status == Fail && StatusCounts(p.pc))
                  || (a == Scan && p.status != Fail && ScanStep(c, p).status == Fail))
  {
    if !a.Scan? {
      OthersKeepFail(c, p, a, m);
    }
  }

  lemma OthersKeepFail(c: Config, p: Program, a: MainAct, m: Msg)
    requires Shaped(c, p) && CanMain(c, p, a) && !a.Scan?
    ensures var q := MainNext(c, p, a, m);
            q.status == Fail && StatusCounts(q.pc) ==> q.round == p.round && p.status == Fail && StatusCounts(p.pc)
  {
  }

  lemma MainHistory(c: Config, s: Sys, a: MainAct)
    requires Inv(c, s) && Enabled(c, s, Main(a))
    ensures History(c, Apply(c, s, Main(a)))
  {
    var s' := Apply(c, s, Main(a));
    var l := MainEffect(c, s.p, a);
    forall j | 0 <= j < c.n ensures s'.ch[j].up == s.ch[j].up {
      TransferAt(s.ch, l, j);
    }
    DecisionSteps(c, s.p, a, Incoming(s.ch, l));
    StatusSteps(c, s.p, a, Incoming(s.ch, l));
    HistoryStays(c, s, s');
    if s'.p.decisions != s.p.decisions {
      NewDecision(c, s, s');
    }
    if a == Scan && s.p.status != Fail && ScanStep(c, s.p).status == Fail {
      FailIsVoted(c, s);
    }
  }

  /** The phase-1 scan turns to "fail" only on a no vote of this round. */
  lemma FailIsVoted(c: Config, s: Sys)
    requires Inv(c, s) && s.p.pc.Scanning? && s.p.status != Fail && ScanStep(c, s.p).status == Fail
    ensures !s.p.cut && !s.p.second && NoVoter(c, s, s.p.round)
  {
    var j := OwnerOfEntry(c, s.p.pc.k);
    assert ConnInv(c, s.p, s.ch[j], j);
    assert !c.vote(j, s.p.round) && Cast(s, j, s.p.round);
  }

  /** The decision entered after phase 1 is grounded in the votes that the scan saw. */
  lemma NewDecision(c: Config, s: Sys, s': Sys)
    requires Inv(c, s) && WellShaped(c, s') && s.p.pc.Clearing? && s.p.second && !s.p.cut && s.p.status != ClusterFail
    requires s'.p.decisions == s.p.decisions + [s.p.status == Success]
    requires forall j :: 0 <= j < c.n ==> s'.ch[j].up == s.ch[j].up
    requires NoVoter(c, s, s.p.round) ==> NoVoter(c, s', s.p.round)
    ensures Grounded(c, s', s.p.round)
  {
    forall j | 0 <= j < c.n && s.p.status == Success ensures c.vote(j, s.p.round) && Cast(s', j, s.p.round) {
      assert ConnInv(c, s.p, s.ch[j], j);
    }
  }

  /** The phase-1 scan never meets anything but votes and empty entries. */
  lemma NoProtocolViolation(c: Config, s: Sys)
    requires Inv(c, s) && s.p.pc.Scanning? && !s.p.second && s.p.pc.k < c.n
    ensures ScanVote(s.p.status, s.p.board[s.p.pc.k]).Some?
  {
    var j := OwnerOfEntry(c, s.p.pc.k);
    assert ConnInv(c, s.p, s.ch[j], j);
  }

  lemma MainWorkers(c: Config, s: Sys, a: MainAct, t: nat)
    requires Inv(c, s) && Enabled(c, s, Main(a)) && t < c.workers
    ensures WorkerInv(c, Apply(c, s, Main(a)), t)
  {
    var p := s.p;
    assert WorkerInv(c, s, t);
    var l := MainEffect(c, p, a);
    ConnectsOnce(c, p, a, Incoming(s.ch, l));
    MainKeepsWorkers(c, p, a, Incoming(s.ch, l));
    var w := p.workers[t];
    if w.Got? {
      assert !p.pc.Connecting?;
      TransferAt(s.ch, l, w.j);
    }
  }

  lemma ConnectsOnce(c: Config, p: Program, a: MainAct, m: Msg)
    requires Shaped(c, p) && CanMain(c, p, a)
    ensures MainNext(c, p, a, m).pc.Connecting? ==> a.Connect?
  {
  }

  lemma MainKeepsWorkers(c: Config, p: Program, a: MainAct, m: Msg)
    requires Shaped(c, p) && CanMain(c, p, a)
    ensures MainNext(c, p, a, m).workers == p.workers
  {
    if IsSending(a) {
      SendingKeeps(c, p, a, m);
    }
  }

  lemma MainGreeted(c: Config, s: Sys, i: nat)
    requires Inv(c, s) && Enabled(c, s, Main(Connect(i)))
    ensures var s' := Apply(c, s, Main(Connect(i))); s'.p.pc.Connecting? && s'.p.pc.k == |Greeted(c, s')|
  {
    HelloIsNext(c, s, i);
    assert Greeted(c, Apply(c, s, Main(Connect(i)))) == Greeted(c, s) + {i};
  }

  lemma MainKeeps(c: Config, s: Sys, a: MainAct)
    requires Inv(c, s) && Enabled(c, s, Main(a))
    ensures Inv(c, Apply(c, s, Main(a)))
  {
    var s' := Apply(c, s, Main(a));
    forall j | 0 <= j < c.n ensures ConnInv(c, s'.p, s'.ch[j], j) {
      assert ConnInv(c, s.p, s.ch[j], j);
      if a.Connect? || a.Connected? {
        ConnectConn(c, s, a, j);
      } else {
        MainConn(c, s, a, j);
      }
    }
    forall t | 0 <= t < c.workers ensures WorkerInv(c, s', t) {
      MainWorkers(c, s, a, t);
    }
    MainHistory(c, s, a);
    var m := Incoming(s.ch, MainEffect(c, s.p, a));
    if IsSending(a) {
      SendingFlags(c, s.p, a, m);
    } else if a.Scan? || a.Resume? {
      ScanFlags(c, s.p, a, m);
    } else if a.Clear? || a.NextRound? {
      ClearFlags(c, s.p, a, m);
    } else {
      OtherFlags(c, s.p, a, m);
    }
    ConnectsOnce(c, s.p, a, m);
    if a.Connect? {
      MainGreeted(c, s, a.j);
    }
  }

  /** A message that a worker holds carries the id of the client it came from. */
  lemma HeldSource(c: Config, s: Sys, t: nat)
    requires Inv(c, s) && t < c.workers && s.p.workers[t].Got?
    ensures s.p.workers[t].j < c.n && s.p.workers[t].m.src == c.ids[s.p.workers[t].j]
  {
    assert WorkerInv(c, s, t);
    assert ConnInv(c, s.p, s.ch[s.p.workers[t].j], s.p.workers[t].j);
  }

  lemma WorkerSteps(c: Config, p: Program, t: nat, a: WorkerAct, m: Msg, x: Chan, j: nat)
    requires ValidConfig(c) && Shaped(c, p) && j < c.n && ConnInv(c, p, x, j) && CanWorker(c, p, t, a)
    requires a == Fetch(j) ==> x.upGot < |x.up|
    requires a.Post? ==> var w := p.workers[t];
               && w.j < c.n && c.owner[w.j] == t && w.m.src == c.ids[w.j]
               && (w.j == j ==> x.upGot > 0 && w.m == x.up[x.upGot - 1])
    ensures ConnInv(c, WorkerNext(c, p, t, a, m), if a == Fetch(j) then x.(upGot := x.upGot + 1) else x, j)
  {
    if a == Fetch(j) {
      WorkerFetches(c, p, t, m, x, j);
    } else if a.Fetch? {
      FetchesElsewhere(c, p, t, a.j, m, x, j);
    } else if a.Post? {
      WorkerPosts(c, p, t, a, m, x, j);
    } else {
      WorkerMoves(c, p, t, a, m, x, j);
    }
  }

  lemma WorkerConn(c: Config, s: Sys, t: nat, a: WorkerAct, j: nat)
    requires ValidConfig(c) && WellShaped(c, s) && Enabled(c, s, Worker(t, a)) && j < c.n
    requires ConnInv(c, s.p, s.ch[j], j) && WorkerInv(c, s, t)
    requires s.p.workers[t].Got? ==> s.p.workers[t].m.src == c.ids[s.p.workers[t].j]
    ensures var s' := Apply(c, s, Worker(t, a)); ConnInv(c, s'.p, s'.ch[j], j) && s'.ch[j].up == s.ch[j].up
  {
    var l := WorkerEffect(c, s.p, t, a);
    TransferAt(s.ch, l, j);
    WorkerSteps(c, s.p, t, a, Incoming(s.ch, l), s.ch[j], j);
  }

  /** Worker u keeps what it knows while worker t takes a step. */
  lemma OtherWorker(c: Config, s: Sys, t: nat, a: WorkerAct, u: nat)
    requires ValidConfig(c) && WellShaped(c, s) && Enabled(c, s, Worker(t, a)) && u < c.workers && u != t
    requires WorkerInv(c, s, u)
    ensures WorkerInv(c, Apply(c, s, Worker(t, a)), u)
  {
    var w := s.p.workers[u];
    assert Apply(c, s, Worker(t, a)).p.workers[u] == w;
    if w.Got? {
      TransferAt(s.ch, WorkerEffect(c, s.p, t, a), w.j);
    }
  }

  lemma SameWorker(c: Config, s: Sys, t: nat, a: WorkerAct)
    requires ValidConfig(c) && WellShaped(c, s) && Enabled(c, s, Worker(t, a))
    requires WorkerInv(c, s, t)
    ensures WorkerInv(c, Apply(c, s, Worker(t, a)), t)
  {
    var l := WorkerEffect(c, s.p, t, a);
    assert Apply(c, s, Worker(t, a)).p.workers[t] == WorkerPcNext(c, s.p, t, a, Incoming(s.ch, l));
    if a.Fetch? {
      TransferAt(s.ch, l, a.j);
    }
  }

  lemma WorkerKeeps(c: Config, s: Sys, t: nat, a: WorkerAct)
    requires Inv(c, s) && Enabled(c, s, Worker(t, a))
    ensures Inv(c, Apply(c, s, Worker(t, a)))
  {
    var s' := Apply(c, s, Worker(t, a));
    assert WorkerInv(c, s, t);
    if s.p.workers[t].Got? {
      HeldSource(c, s, t);
    }
    forall j | 0 <= j < c.n ensures ConnInv(c, s'.p, s'.ch[j], j) && s'.ch[j].up == s.ch[j].up {
      WorkerConn(c, s, t, a, j);
    }
    HistoryStays(c, s, s');
    forall u | 0 <= u < c.workers ensures WorkerInv(c, s', u) {
      assert WorkerInv(c, s, u);
      if u == t {
        SameWorker(c, s, t, a);
      } else {
        OtherWorker(c, s, t, a, u);
      }
    }
  }

  /** Steps of another client leave connection j alone. */
  lemma OtherClient(c: Config, p: Program, i: nat, a: ClientAct, m: Msg, x: Chan, j: nat)
    requires ValidConfig(c) && Shaped(c, p) && j < c.n && ConnInv(c, p, x, j) && CanClient(c, p, i, a) && i != j
    ensures ConnInv(c, ClientNext(c, p, i, a, m), x, j)
  {
    assert LookAt(c, ClientNext(c, p, i, a, m), j) == LookAt(c, p, j);
  }

  lemma ClientConn(c: Config, s: Sys, i: nat, a: ClientAct, j: nat)
    requires ValidConfig(c) && WellShaped(c, s) && Enabled(c, s, Peer(i, a)) && j < c.n
    requires ConnInv(c, s.p, s.ch[j], j)
    ensures var s' := Apply(c, s, Peer(i, a));
            ConnInv(c, s'.p, s'.ch[j], j) && s.ch[j].up <= s'.ch[j].up && s'.ch[j].upGot == s.ch[j].upGot
  {
    var l := ClientEffect(c, s.p, i, a);
    TransferAt(s.ch, l, j);
    if i == j {
      if a == Receive {
        ClientReceives(c, s.p, Incoming(s.ch, l), s.ch[j], j);
      } else {
        ClientSteps(c, s.p, a, Incoming(s.ch, l), s.ch[j], j);
      }
    } else {
      OtherClient(c, s.p, i, a, Incoming(s.ch, l), s.ch[j], j);
    }
  }

  lemma ClientKeeps(c: Config, s: Sys, i: nat, a: ClientAct)
    requires Inv(c, s) && Enabled(c, s, Peer(i, a))
    ensures Inv(c, Apply(c, s, Peer(i, a)))
  {
    var s' := Apply(c, s, Peer(i, a));
    forall j | 0 <= j < c.n
      ensures ConnInv(c, s'.p, s'.ch[j], j) && s.ch[j].up <= s'.ch[j].up && s'.ch[j].upGot == s.ch[j].upGot
    {
      ClientConn(c, s, i, a, j);
    }
    HistoryStays(c, s, s');
    forall u | 0 <= u < c.workers ensures WorkerInv(c, s', u) {
      assert WorkerInv(c, s, u);
    }
    assert Greeted(c, s') == Greeted(c, s);
  }

  lemma StopMoves(c: Config, p: Program, x: Chan, j: nat)
    requires ValidConfig(c) && Shaped(c, p) && j < c.n && ConnInv(c, p, x, j)
    ensures ConnInv(c, p.(stop := true), x, j)
  {
    assert LookAt(c, p.(stop := true), j) == LookAt(c, p, j);
  }

  lemma StopKeeps(c: Config, s: Sys)
    requires Inv(c, s)
    ensures Inv(c, Apply(c, s, Stop))
  {
    var s' := Apply(c, s, Stop);
    forall j | 0 <= j < c.n ensures ConnInv(c, s'.p, s'.ch[j], j) {
      assert ConnInv(c, s.p, s.ch[j], j);
      StopMoves(c, s.p, s.ch[j], j);
    }
    HistoryStays(c, s, s');
    forall u | 0 <= u < c.workers ensures WorkerInv(c, s', u) {
      assert WorkerInv(c, s, u);
    }
    assert Greeted(c, s') == Greeted(c, s);
  }

  lemma StepKeeps(c: Config, s: Sys, a: Act)
    requires Inv(c, s) && Enabled(c, s, a)
    ensures Inv(c, Apply(c, s, a))
  {
    match a
    case Main(ma) => MainKeeps(c, s, ma);
    case Worker(t, wa) => WorkerKeeps(c, s, t, wa);
    case Peer(j, ca) => ClientKeeps(c, s, j, ca);
    case Stop => StopKeeps(c, s);
  }

  /** The invariant holds in every state of every run. */
  lemma {:induction false} RunInv(c: Config, acts: seq<Act>)
    requires ValidConfig(c)
    ensures Run(c, acts).Some? ==> Inv(c, Run(c, acts).value)
  {
    if acts == [] {
      InitInv(c);
    } else if Run(c, acts).Some? {
      RunInv(c, acts[..|acts| - 1]);
      StepKeeps(c, Run(c, acts[..|acts| - 1]).value, acts[|acts| - 1]);
    }
  }
}
