/** Vote counting in runs in which no wait_for_votes timed out: the unsynchronised
    per-worker counters, which main sums without a lock and which both main and the
    workers reset, never run ahead of the scoreboard. */
module VoteCount {
  import opened Messages
  import opened Channel
  import opened TwoPhase
  import opened FifoSystem
  import opened CommitInvariant

  /** The worker of connection j has taken a message from it and not yet counted it. */
  predicate Busy(c: Config, p: Program, j: nat)
    requires ValidConfig(c) && Shaped(c, p) && j < c.n
  {
    var w := p.workers[c.owner[j]];
    (w.Got? || w.Posted? || w.Released? || w.Adding?) && w.j == j
  }

  /** How many messages had been taken from each connection when the phase began. */
  function Start(p: Program): nat {
    2 * p.round + if p.second then 2 else 1
  }

  predicate Counted(c: Config, p: Program, x: Chan, j: nat)
    requires ValidConfig(c) && Shaped(c, p) && j < c.n
  {
    x.upGot > Start(p) && !Busy(c, p, j)
  }

  ghost function CountedBy(c: Config, s: Sys, t: nat): set<nat>
    requires ValidConfig(c) && WellShaped(c, s)
  {
    set j | 0 <= j < c.n && c.owner[j] == t && Counted(c, s.p, s.ch[j], j)
  }

  ghost function CountedBelow(c: Config, s: Sys, t: nat): set<nat>
    requires ValidConfig(c) && WellShaped(c, s)
  {
    set j | 0 <= j < c.n && c.owner[j] < t && Counted(c, s.p, s.ch[j], j)
  }

  datatype Stage = Before | Idle | Collecting | Collected | Over

  function StageOf(pc: MainPc): Stage {
    match pc
    case Connecting(_) => Before
    case RoundTop | Clearing(_) | Stamping(_) => Idle
    case Sending(_, _) | Writing(_, _, _) | Checking(_, _, _) | Polling(_, _) => Collecting
    case Pausing | Scanning(_) | Zeroing(_) | Resuming => Collected
    case Halted => Over
  }

  /** What connection j contributes at each stage. */
  predicate ConnCount(c: Config, p: Program, x: Chan, j: nat)
    requires ValidConfig(c) && Shaped(c, p) && j < c.n
  {
    match StageOf(p.pc)
    case Before => !Busy(c, p, j)
    case Idle => x.upGot == Start(p) && !Busy(c, p, j)
    case Collecting => x.upGot >= Start(p) && (Busy(c, p, j) ==> x.upGot > Start(p))
    case Collected => Counted(c, p, x, j)
    case Over => true
  }

  /** What the counter of worker t is worth at each stage. */
  ghost predicate WorkerCount(c: Config, s: Sys, t: nat)
    requires ValidConfig(c) && WellShaped(c, s) && t < c.workers
  {
    var p, w := s.p, s.p.workers[t];
    match StageOf(p.pc)
    case Before | Idle => p.count[t] == 0
    case Collecting =>
      && p.count[t] == |CountedBy(c, s, t)|
      && (w.Adding? ==> w.v == p.count[t])
      && (w.Resetting? ==> forall j :: 0 <= j < c.n && c.owner[j] == t ==> s.ch[j].upGot == Start(p))
    case Collected => (p.pc.Zeroing? && t < p.pc.t) || p.pc.Resuming? ==> p.count[t] == 0
    case Over => true
  }

  predicate ScansWell(p: Program) {
    && (p.pause <==> p.pc.Scanning? || p.pc.Zeroing? || p.pc.Resuming?)
    && (p.pc.Scanning? || p.pc.Zeroing? || p.pc.Resuming? ==> if p.second then p.ok else p.status != ClusterFail)
  }

  /** A run in which nothing timed out so far. */
  predicate Smooth(p: Program) {
    !p.timedOut && !p.pc.Halted?
  }

  ghost predicate CountInv(c: Config, s: Sys)
    requires ValidConfig(c) && WellShaped(c, s)
  {
    Smooth(s.p) ==>
      && ScansWell(s.p)
      && (s.p.pc.Polling? ==> s.p.pc.t <= c.workers && s.p.pc.total <= |CountedBelow(c, s, s.p.pc.t)|)
      && (forall j :: 0 <= j < c.n ==> ConnCount(c, s.p, s.ch[j], j))
      && (forall t :: 0 <= t < c.workers ==> WorkerCount(c, s, t))
  }

  // ---------------------------------------------------------------- preservation

  lemma InitCount(c: Config)
    requires ValidConfig(c)
    ensures CountInv(c, InitSys(c))
  {
  }

  /** No connection ever carries more than one unanswered message upwards. */
  lemma AtMostOne(c: Config, s: Sys, j: nat)
    requires Inv(c, s) && j < c.n && !s.p.pc.Halted? && !s.p.pc.Connecting?
    ensures |s.ch[j].up| <= DownLen(s.p, j) + 1
  {
    assert ConnInv(c, s.p, s.ch[j], j);
  }

  lemma BelowGrows(c: Config, s: Sys, t: nat)
    requires ValidConfig(c) && WellShaped(c, s)
    ensures |CountedBelow(c, s, t + 1)| == |CountedBelow(c, s, t)| + |CountedBy(c, s, t)|
  {
    assert CountedBelow(c, s, t + 1) == CountedBelow(c, s, t) + CountedBy(c, s, t);
  }

  /** If the sum over all workers reaches n, every connection has been counted. */
  lemma FullCount(c: Config, s: Sys)
    requires ValidConfig(c) && WellShaped(c, s)
    ensures |CountedBelow(c, s, c.workers)| <= c.n
    ensures |CountedBelow(c, s, c.workers)| == c.n ==> forall j :: 0 <= j < c.n ==> Counted(c, s.p, s.ch[j], j)
  {
    var all := CountedBelow(c, s, c.workers);
    CardOfRange(c.n, all);
    forall j | 0 <= j < c.n && |all| == c.n ensures Counted(c, s.p, s.ch[j], j) {
      assert j in all;
    }
  }

  /** Most steps of main stay within a stage or go on to one that asks for no more. */
  lemma MainKeepsCount(c: Config, p: Program, a: MainAct, m: Msg, x: Chan, j: nat)
    requires ValidConfig(c) && Shaped(c, p) && Flags(c, p) && j < c.n && CanMain(c, p, a) && Smooth(p)
    requires ConnCount(c, p, x, j) && Smooth(MainNext(c, p, a, m))
    requires !a.Connect? && !a.Connected? && !a.Poll? && !a.Resume?
    ensures ConnCount(c, MainNext(c, p, a, m), x, j)
  {
  }

  /** If the sum that main has read reaches n, every connection has been counted. */
  lemma FullSum(c: Config, s: Sys)
    requires Inv(c, s) && CountInv(c, s) && Smooth(s.p)
    requires s.p.pc.Polling? && s.p.pc.t >= c.workers && s.p.pc.total >= c.n
    ensures forall j :: 0 <= j < c.n ==> Counted(c, s.p, s.ch[j], j)
  {
    FullCount(c, s);
    assert CountedBelow(c, s, s.p.pc.t) == CountedBelow(c, s, c.workers);
  }

  /** Steps of main, seen from connection j. */
  lemma MainConnCount(c: Config, p: Program, a: MainAct, m: Msg, x: Chan, j: nat)
    requires ValidConfig(c) && Shaped(c, p) && Flags(c, p) && j < c.n && CanMain(c, p, a) && Smooth(p)
    requires ConnInv(c, p, x, j) && ConnCount(c, p, x, j)
    requires a.Connected? ==> x.upGot == 1
    requires a.Poll? && p.pc.t >= c.workers && p.pc.total >= c.n ==> Counted(c, p, x, j)
    requires a.Resume? ==> x.upGot <= Start(p) + 1
    requires Smooth(MainNext(c, p, a, m))
    ensures ConnCount(c, MainNext(c, p, a, m), if a.Connect? && a.j == j then x.(upGot := x.upGot + 1) else x, j)
  {
    if !a.Connect? && !a.Connected? && !a.Poll? && !a.Resume? {
      MainKeepsCount(c, p, a, m, x, j);
    }
  }

  lemma MainScansWell(c: Config, p: Program, a: MainAct, m: Msg)
    requires Shaped(c, p) && Flags(c, p) && CanMain(c, p, a) && Smooth(p) && ScansWell(p)
    requires p.pc.Scanning? && p.pc.k < c.n ==> if p.second then p.board[p.pc.k] == Ack else p.board[p.pc.k] in {VoteYes, VoteNo}
    requires Smooth(MainNext(c, p, a, m))
    ensures ScansWell(MainNext(c, p, a, m))
  {
  }

  /** When all are counted, every scoreboard entry is set. */
  lemma CountedIsPosted(c: Config, s: Sys, j: nat)
    requires Inv(c, s) && j < c.n && !s.p.pc.Halted? && StageOf(s.p.pc) in {Collecting, Collected}
    requires Counted(c, s.p, s.ch[j], j)
    ensures Entry(c, s.p, j) == if s.p.second then Ack else VoteKind(c, j, s.p.round)
  {
    AtMostOne(c, s, j);
    assert ConnInv(c, s.p, s.ch[j], j);
  }

  lemma SameCounted(c: Config, s: Sys, s': Sys, t: nat)
    requires ValidConfig(c) && WellShaped(c, s) && WellShaped(c, s')
    requires s'.p.workers == s.p.workers && Start(s'.p) == Start(s.p)
    requires forall j :: 0 <= j < c.n ==> s'.ch[j].upGot == s.ch[j].upGot
    ensures CountedBy(c, s', t) == CountedBy(c, s, t) && CountedBelow(c, s', t) == CountedBelow(c, s, t)
  {
  }

  /** What a step of main that ends in the collecting stage leaves alone. */
  predicate KeepsCounts(p: Program, q: Program) {
    q.workers == p.workers && q.count == p.count && Start(q) == Start(p)
  }

  lemma SendingCounters(c: Config, p: Program, a: MainAct, m: Msg)
    requires Shaped(c, p) && CanMain(c, p, a) && IsSending(a)
    ensures KeepsCounts(p, MainNext(c, p, a, m))
    ensures StageOf(p.pc) == if a.Stamp? then Idle else Collecting
  {
  }

  /** Main comes to the collecting stage only by sending, or by polling on. */
  lemma MainCounters(c: Config, p: Program, a: MainAct, m: Msg)
    requires Shaped(c, p) && CanMain(c, p, a) && StageOf(MainNext(c, p, a, m).pc) == Collecting
    ensures IsSending(a) || a.Poll?
    ensures KeepsCounts(p, MainNext(c, p, a, m)) && StageOf(p.pc) == if a.Stamp? then Idle else Collecting
  {
    if IsSending(a) {
      SendingCounters(c, p, a, m);
    } else if a.Scan? || a.Clear? || a.Resume? || a.NextRound? {
      PhaseIsNotCollecting(c, p, a, m);
      assert false;
    } else if a.Poll? {
      PollCounters(c, p, m);
    } else {
      OtherIsNotCollecting(c, p, a, m);
      assert false;
    }
  }

  lemma PollCounters(c: Config, p: Program, m: Msg)
    requires Shaped(c, p) && CanMain(c, p, Poll)
    ensures KeepsCounts(p, MainNext(c, p, Poll, m)) && StageOf(p.pc) == Collecting
  {
  }

  lemma PhaseIsNotCollecting(c: Config, p: Program, a: MainAct, m: Msg)
    requires Shaped(c, p) && CanMain(c, p, a) && (a.Scan? || a.Clear? || a.Resume? || a.NextRound?)
    ensures StageOf(MainNext(c, p, a, m).pc) != Collecting
  {
  }

  lemma OtherIsNotCollecting(c: Config, p: Program, a: MainAct, m: Msg)
    requires Shaped(c, p) && CanMain(c, p, a)
    requires a.Connect? || a.Connected? || a.Broken? || a.Timeout? || a.Pause? || a.Zero?
    ensures StageOf(MainNext(c, p, a, m).pc) != Collecting
  {
  }

  /** Outside the collecting stage only the value of the counter matters. */
  predicate CounterOutside(p: Program, t: nat)
    requires t < |p.count|
  {
    match StageOf(p.pc)
    case Before | Idle => p.count[t] == 0
    case Collecting => true
    case Collected => (p.pc.Zeroing? && t < p.pc.t) || p.pc.Resuming? ==> p.count[t] == 0
    case Over => true
  }

  lemma CounterElsewhere(c: Config, p: Program, a: MainAct, m: Msg, t: nat)
    requires Shaped(c, p) && CanMain(c, p, a) && t < c.workers && CounterOutside(p, t)
    ensures CounterOutside(MainNext(c, p, a, m), t)
  {
    if IsSending(a) {
      SendingCounters(c, p, a, m);
    }
  }


  /** Steps of main, seen from worker t. */
  lemma MainWorkerCount(c: Config, s: Sys, a: MainAct, t: nat)
    requires Inv(c, s) && CountInv(c, s) && Enabled(c, s, Main(a)) && t < c.workers
    requires Smooth(s.p) && Smooth(Apply(c, s, Main(a)).p)
    ensures WorkerCount(c, Apply(c, s, Main(a)), t)
  {
    var s' := Apply(c, s, Main(a));
    var l := MainEffect(c, s.p, a);
    if StageOf(s'.p.pc) != Collecting {
      assert WorkerCount(c, s, t);
      CounterElsewhere(c, s.p, a, Incoming(s.ch, l), t);
    } else {
      MainCounters(c, s.p, a, Incoming(s.ch, l));
      assert WorkerCount(c, s, t) && WorkerInv(c, s, t);
      forall j | 0 <= j < c.n ensures s'.ch[j].upGot == s.ch[j].upGot {
        TransferAt(s.ch, l, j);
      }
      SameCounted(c, s, s', t);
      if a.Stamp? {
        forall j | 0 <= j < c.n ensures s.ch[j].upGot == Start(s.p) && !Busy(c, s.p, j) {
          assert ConnCount(c, s.p, s.ch[j], j);
        }
        assert CountedBy(c, s', t) == {};
      }
    }
  }

  lemma MainCounts(c: Config, s: Sys, a: MainAct)
    requires Inv(c, s) && CountInv(c, s) && Enabled(c, s, Main(a))
    ensures CountInv(c, Apply(c, s, Main(a)))
  {
    var s' := Apply(c, s, Main(a));
    if Smooth(s'.p) {
      forall j | 0 <= j < c.n ensures ConnCount(c, s'.p, s'.ch[j], j) {
        MainCountsConn(c, s, a, j);
      }
      forall t | 0 <= t < c.workers ensures WorkerCount(c, s', t) {
        MainWorkerCount(c, s, a, t);
      }
      MainCountsScan(c, s, a);
      if s'.p.pc.Polling? {
        MainCountsSum(c, s, a);
      }
    }
  }

  lemma StillSmooth(c: Config, p: Program, a: MainAct, m: Msg)
    requires Shaped(c, p) && CanMain(c, p, a) && Smooth(MainNext(c, p, a, m))
    ensures Smooth(p)
  {
  }

  /** What a step of main may rely on at connection j when it moves to another stage. */
  lemma StageFacts(c: Config, s: Sys, a: MainAct, j: nat)
    requires Inv(c, s) && CountInv(c, s) && CanMain(c, s.p, a) && j < c.n && Smooth(s.p)
    ensures a.Connected? ==> s.ch[j].upGot == 1
    ensures a.Poll? && s.p.pc.t >= c.workers && s.p.pc.total >= c.n ==> Counted(c, s.p, s.ch[j], j)
    ensures a.Resume? ==> s.ch[j].upGot <= Start(s.p) + 1
  {
    assert ConnInv(c, s.p, s.ch[j], j);
    if a.Connected? {
      CardOfRange(c.n, Greeted(c, s));
      assert j in Greeted(c, s);
    } else if a.Poll? && s.p.pc.t >= c.workers && s.p.pc.total >= c.n {
      FullSum(c, s);
    } else if a.Resume? {
      AtMostOne(c, s, j);
    }
  }

  lemma MainCountsConn(c: Config, s: Sys, a: MainAct, j: nat)
    requires Inv(c, s) && CountInv(c, s) && Enabled(c, s, Main(a)) && j < c.n
    requires Smooth(Apply(c, s, Main(a)).p)
    ensures var s' := Apply(c, s, Main(a)); ConnCount(c, s'.p, s'.ch[j], j)
  {
    var l := MainEffect(c, s.p, a);
    var m := Incoming(s.ch, l);
    StillSmooth(c, s.p, a, m);
    StageFacts(c, s, a, j);
    assert ConnInv(c, s.p, s.ch[j], j) && ConnCount(c, s.p, s.ch[j], j);
    MainConnCount(c, s.p, a, m, s.ch[j], j);
    TransferAt(s.ch, l, j);
    SameTaken(c, Apply(c, s, Main(a)).p, if a.Connect? && a.j == j then s.ch[j].(upGot := s.ch[j].upGot + 1) else s.ch[j],
              Apply(c, s, Main(a)).ch[j], j);
  }

  lemma SameTaken(c: Config, p: Program, x: Chan, y: Chan, j: nat)
    requires ValidConfig(c) && Shaped(c, p) && j < c.n && ConnCount(c, p, x, j) && x.upGot == y.upGot
    ensures ConnCount(c, p, y, j)
  {
  }

  lemma MainCountsScan(c: Config, s: Sys, a: MainAct)
    requires Inv(c, s) && CountInv(c, s) && Enabled(c, s, Main(a))
    requires Smooth(Apply(c, s, Main(a)).p)
    ensures ScansWell(Apply(c, s, Main(a)).p)
  {
    var m := Incoming(s.ch, MainEffect(c, s.p, a));
    StillSmooth(c, s.p, a, m);
    if s.p.pc.Scanning? && s.p.pc.k < c.n {
      var j := OwnerOfEntry(c, s.p.pc.k);
      assert ConnCount(c, s.p, s.ch[j], j);
      CountedIsPosted(c, s, j);
    }
    MainScansWell(c, s.p, a, m);
  }

  lemma MainCountsSum(c: Config, s: Sys, a: MainAct)
    requires Inv(c, s) && CountInv(c, s) && Enabled(c, s, Main(a))
    requires Smooth(Apply(c, s, Main(a)).p) && Apply(c, s, Main(a)).p.pc.Polling?
    ensures var s' := Apply(c, s, Main(a)); s'.p.pc.t <= c.workers && s'.p.pc.total <= |CountedBelow(c, s', s'.p.pc.t)|
  {
    var s' := Apply(c, s, Main(a));
    var m := Incoming(s.ch, MainEffect(c, s.p, a));
    StillSmooth(c, s.p, a, m);
    ComesToPolling(c, s.p, a, m);
    assert forall j :: 0 <= j < c.n ==> s'.ch[j].upGot == s.ch[j].upGot;
    SameCounted(c, s, s', s'.p.pc.t);
    if a.Poll? && s.p.pc.t < c.workers {
      BelowGrows(c, s, s.p.pc.t);
      assert WorkerCount(c, s, s.p.pc.t);
    }
  }

  lemma ComesToPolling(c: Config, p: Program, a: MainAct, m: Msg)
    requires Shaped(c, p) && CanMain(c, p, a) && MainNext(c, p, a, m).pc.Polling?
    ensures a.Poll? || (a.SendExit? && MainNext(c, p, a, m).pc == Polling(0, 0))
    ensures KeepsCounts(p, MainNext(c, p, a, m))
  {
    MainCounters(c, p, a, m);
  }

  lemma WorkerKeepsCount(c: Config, p: Program, t: nat, a: WorkerAct, m: Msg, x: Chan, j: nat)
    requires ValidConfig(c) && Shaped(c, p) && j < c.n && CanWorker(c, p, t, a) && ConnCount(c, p, x, j)
    requires a == Fetch(j) ==> StageOf(p.pc) != Idle && (StageOf(p.pc) == Collected ==> x.upGot < Start(p) + 1)
    requires a.Post? ==> 1 <= p.workers[t].m.src <= c.n
    ensures ConnCount(c, WorkerNext(c, p, t, a, m), if a == Fetch(j) then x.(upGot := x.upGot + 1) else x, j)
  {
  }

  /** Steps of worker t, seen from connection j. */
  lemma WorkerConnCount(c: Config, s: Sys, t: nat, a: WorkerAct, j: nat)
    requires Inv(c, s) && CountInv(c, s) && Enabled(c, s, Worker(t, a)) && j < c.n && Smooth(s.p)
    ensures var s' := Apply(c, s, Worker(t, a)); ConnCount(c, s'.p, s'.ch[j], j)
  {
    var l := WorkerEffect(c, s.p, t, a);
    TransferAt(s.ch, l, j);
    assert ConnCount(c, s.p, s.ch[j], j);
    if a.Post? {
      HeldSource(c, s, t);
    }
    if a == Fetch(j) {
      AtMostOne(c, s, j);
    }
    WorkerKeepsCount(c, s.p, t, a, Incoming(s.ch, l), s.ch[j], j);
  }

  /** A step of worker t, seen from connection j: only the write of the counter counts it. */
  lemma WorkerCountsConn(c: Config, p: Program, t: nat, a: WorkerAct, m: Msg, x: Chan, j: nat)
    requires ValidConfig(c) && Shaped(c, p) && j < c.n && CanWorker(c, p, t, a)
    requires StageOf(p.pc) == Collecting && ConnCount(c, p, x, j) && x.upGot <= Start(p) + 1
    requires a.Fetch? && a.j == j ==> x.upGot < Start(p) + 1
    requires a.Post? ==> 1 <= p.workers[t].m.src <= c.n
    requires var w := p.workers[t]; w.Adding? ==> w.j < c.n && c.owner[w.j] == t
    ensures Counted(c, WorkerNext(c, p, t, a, m), if a.Fetch? && a.j == j then x.(upGot := x.upGot + 1) else x, j)
            <==> Counted(c, p, x, j) || (a.Store? && j == p.workers[t].j)
  {
  }

  lemma WorkerCountsAt(c: Config, s: Sys, t: nat, a: WorkerAct, j: nat)
    requires Inv(c, s) && CountInv(c, s) && Enabled(c, s, Worker(t, a)) && j < c.n && Smooth(s.p)
    requires StageOf(s.p.pc) == Collecting
    ensures var s' := Apply(c, s, Worker(t, a));
            Counted(c, s'.p, s'.ch[j], j) <==> Counted(c, s.p, s.ch[j], j) || (a.Store? && j == s.p.workers[t].j)
  {
    var l := WorkerEffect(c, s.p, t, a);
    assert WorkerInv(c, s, t);
    if a.Post? {
      HeldSource(c, s, t);
    }
    TransferAt(s.ch, l, j);
    assert ConnInv(c, s.p, s.ch[j], j) && ConnCount(c, s.p, s.ch[j], j);
    AtMostOne(c, s, j);
    WorkerCountsConn(c, s.p, t, a, Incoming(s.ch, l), s.ch[j], j);
  }

  /** What a step of worker t counts: only the write of its counter adds a connection. */
  lemma WorkerCountedBy(c: Config, s: Sys, t: nat, a: WorkerAct, u: nat)
    requires Inv(c, s) && CountInv(c, s) && Enabled(c, s, Worker(t, a)) && u < c.workers && Smooth(s.p)
    requires StageOf(s.p.pc) == Collecting
    ensures var s' := Apply(c, s, Worker(t, a));
            if a.Store? && u == t
            then s.p.workers[t].j !in CountedBy(c, s, t) && CountedBy(c, s', u) == CountedBy(c, s, u) + {s.p.workers[t].j}
            else CountedBy(c, s', u) == CountedBy(c, s, u)
  {
    var s' := Apply(c, s, Worker(t, a));
    assert WorkerInv(c, s, t);
    forall j | 0 <= j < c.n
      ensures Counted(c, s'.p, s'.ch[j], j) <==> Counted(c, s.p, s.ch[j], j) || (a.Store? && j == s.p.workers[t].j)
    {
      WorkerCountsAt(c, s, t, a, j);
    }
  }

  /** While main collects, the counter of worker u stays equal to what u has counted. */
  lemma CounterIsExact(c: Config, s: Sys, t: nat, a: WorkerAct, u: nat)
    requires Inv(c, s) && CountInv(c, s) && Enabled(c, s, Worker(t, a)) && u < c.workers && Smooth(s.p)
    requires StageOf(s.p.pc) == Collecting
    ensures var s' := Apply(c, s, Worker(t, a)); s'.p.count[u] == |CountedBy(c, s', u)|
  {
    assert WorkerCount(c, s, u);
    WorkerCountedBy(c, s, t, a, u);
    if a.Reset? && u == t {
      NothingToReset(c, s, t);
    }
    CounterStep(c, s.p, t, a, Incoming(s.ch, WorkerEffect(c, s.p, t, a)), u,
                CountedBy(c, s, u), CountedBy(c, Apply(c, s, Worker(t, a)), u));
  }

  lemma CounterStep(c: Config, p: Program, t: nat, a: WorkerAct, m: Msg, u: nat, was: set<nat>, now: set<nat>)
    requires Shaped(c, p) && CanWorker(c, p, t, a) && u < c.workers && p.count[u] == |was|
    requires var w := p.workers[t];
             if a.Store? && u == t then w.v == p.count[t] && w.j !in was && now == was + {w.j} else now == was
    requires a.Reset? && u == t ==> was == {}
    ensures WorkerNext(c, p, t, a, m).count[u] == |now|
  {
  }

  lemma NothingToReset(c: Config, s: Sys, t: nat)
    requires ValidConfig(c) && WellShaped(c, s) && t < c.workers && WorkerCount(c, s, t)
    requires StageOf(s.p.pc) == Collecting && s.p.workers[t].Resetting?
    ensures CountedBy(c, s, t) == {}
  {
  }

  /** A loaded counter value is never out of date: nobody else writes the counter meanwhile. */
  lemma LoadedIsCurrent(c: Config, s: Sys, t: nat, a: WorkerAct, u: nat)
    requires Inv(c, s) && CountInv(c, s) && Enabled(c, s, Worker(t, a)) && u < c.workers && Smooth(s.p)
    requires StageOf(s.p.pc) == Collecting
    ensures var s' := Apply(c, s, Worker(t, a)); var w := s'.p.workers[u]; w.Adding? ==> w.v == s'.p.count[u]
  {
    assert WorkerCount(c, s, u);
  }

  /** A worker that is about to clear its counter has taken nothing in this phase. */
  lemma ResettingIsEarly(c: Config, s: Sys, t: nat, a: WorkerAct, u: nat)
    requires Inv(c, s) && CountInv(c, s) && Enabled(c, s, Worker(t, a)) && u < c.workers && Smooth(s.p)
    requires StageOf(s.p.pc) == Collecting && Apply(c, s, Worker(t, a)).p.workers[u].Resetting?
    ensures var s' := Apply(c, s, Worker(t, a));
            forall j :: 0 <= j < c.n && c.owner[j] == u ==> s'.ch[j].upGot == Start(s'.p)
  {
    var s' := Apply(c, s, Worker(t, a));
    assert WorkerCount(c, s, u);
    forall j | 0 <= j < c.n && c.owner[j] == u ensures s'.ch[j].upGot == Start(s'.p) {
      TransferAt(s.ch, WorkerEffect(c, s.p, t, a), j);
    }
  }

  /** Steps of worker t, seen from the counter of worker u. */
  lemma WorkerWorkerCount(c: Config, s: Sys, t: nat, a: WorkerAct, u: nat)
    requires Inv(c, s) && CountInv(c, s) && Enabled(c, s, Worker(t, a)) && u < c.workers && Smooth(s.p)
    ensures WorkerCount(c, Apply(c, s, Worker(t, a)), u)
  {
    if StageOf(s.p.pc) == Collecting {
      CounterIsExact(c, s, t, a, u);
      LoadedIsCurrent(c, s, t, a, u);
      if Apply(c, s, Worker(t, a)).p.workers[u].Resetting? {
        ResettingIsEarly(c, s, t, a, u);
      }
    } else {
      assert WorkerCount(c, s, u) && WorkerInv(c, s, t);
      var w := s.p.workers[t];
      if w.Adding? {
        assert ConnCount(c, s.p, s.ch[w.j], w.j);
      }
    }
  }

  lemma WorkerCounts(c: Config, s: Sys, t: nat, a: WorkerAct)
    requires Inv(c, s) && CountInv(c, s) && Enabled(c, s, Worker(t, a))
    ensures CountInv(c, Apply(c, s, Worker(t, a)))
  {
    var s' := Apply(c, s, Worker(t, a));
    if Smooth(s.p) {
      forall j | 0 <= j < c.n ensures ConnCount(c, s'.p, s'.ch[j], j) {
        WorkerConnCount(c, s, t, a, j);
      }
      forall u | 0 <= u < c.workers ensures WorkerCount(c, s', u) {
        WorkerWorkerCount(c, s, t, a, u);
      }
      if s.p.pc.Polling? {
        WorkerCountsSum(c, s, t, a);
      }
    }
  }

  lemma WorkerCountsSum(c: Config, s: Sys, t: nat, a: WorkerAct)
    requires Inv(c, s) && CountInv(c, s) && Enabled(c, s, Worker(t, a)) && Smooth(s.p) && s.p.pc.Polling?
    ensures |CountedBelow(c, s, s.p.pc.t)| <= |CountedBelow(c, Apply(c, s, Worker(t, a)), s.p.pc.t)|
  {
    var s' := Apply(c, s, Worker(t, a));
    forall j | j in CountedBelow(c, s, s.p.pc.t) ensures j in CountedBelow(c, s', s.p.pc.t) {
      WorkerCountedBy(c, s, t, a, c.owner[j]);
      assert j in CountedBy(c, s', c.owner[j]);
    }
    SubsetIsSmaller(CountedBelow(c, s, s.p.pc.t), CountedBelow(c, s', s.p.pc.t));
  }

  lemma SubsetIsSmaller(a: set<nat>, b: set<nat>)
    requires a <= b
    ensures |a| <= |b|
  {
    assert b == a + (b - a);
  }

  /** Clients and stop_signal do not touch what is counted. */
  lemma OtherCounts(c: Config, s: Sys, a: Act)
    requires Inv(c, s) && CountInv(c, s) && Enabled(c, s, a) && (a.Peer? || a.Stop?)
    ensures CountInv(c, Apply(c, s, a))
  {
    var s' := Apply(c, s, a);
    forall j | 0 <= j < c.n ensures s'.ch[j].upGot == s.ch[j].upGot && (Smooth(s.p) ==> ConnCount(c, s'.p, s'.ch[j], j)) {
      TransferAt(s.ch, Effect(c, s.p, a), j);
      assert Smooth(s.p) ==> ConnCount(c, s.p, s.ch[j], j);
    }
    forall t | 0 <= t < c.workers ensures Smooth(s.p) ==> WorkerCount(c, s', t) {
      SameCounted(c, s, s', t);
      assert Smooth(s.p) ==> WorkerCount(c, s, t);
    }
    if s.p.pc.Polling? {
      SameCounted(c, s, s', s.p.pc.t);
    }
  }

  /** The counting invariant holds in every state of every run. */
  lemma {:induction false} RunCount(c: Config, acts: seq<Act>)
    requires ValidConfig(c) && Run(c, acts).Some?
    ensures Inv(c, Run(c, acts).value) && CountInv(c, Run(c, acts).value)
  {
    if acts == [] {
      InitInv(c);
      InitCount(c);
    } else {
      RunCount(c, acts[..|acts| - 1]);
      var s, a := Run(c, acts[..|acts| - 1]).value, acts[|acts| - 1];
      StepKeeps(c, s, a);
      match a
      case Main(ma) => MainCounts(c, s, ma);
      case Worker(t, wa) => WorkerCounts(c, s, t, wa);
      case _ => OtherCounts(c, s, a);
    }
  }

  // -------------------------------------------------------------------- theorems

  /** The connections whose client has a scoreboard entry. */
  ghost function Entries(c: Config, p: Program): set<nat>
    requires ValidConfig(c) && Shaped(c, p)
  {
    set j | 0 <= j < c.n && Entry(c, p, j) != Lost
  }

  /** THE SUM NEVER RUNS AHEAD. While nothing has timed out, whatever main has summed up so
      far is at most the number of scoreboard entries set in this phase. */
  lemma SumWithinEntries(c: Config, acts: seq<Act>)
    requires ValidConfig(c) && Run(c, acts).Some?
    requires var p := Run(c, acts).value.p; p.pc.Polling? && !p.timedOut
    ensures var p := Run(c, acts).value.p; p.pc.total <= |Entries(c, p)| <= c.n
  {
    RunCount(c, acts);
    var s := Run(c, acts).value;
    var below := CountedBelow(c, s, s.p.pc.t);
    forall j | j in below ensures j in Entries(c, s.p) {
      CountedIsPosted(c, s, j);
    }
    SubsetIsSmaller(below, Entries(c, s.p));
    CardOfRange(c.n, Entries(c, s.p));
  }

  /** NO LOST VOTE. If nothing timed out, then once main stops polling every client's entry
      of this phase is on the scoreboard, counted, and its worker is done with it. */
  lemma NothingLostWithoutTimeout(c: Config, acts: seq<Act>, j: nat)
    requires ValidConfig(c) && Run(c, acts).Some? && j < c.n
    requires var p := Run(c, acts).value.p; StageOf(p.pc) == Collected && !p.timedOut
    ensures var s := Run(c, acts).value;
            && Entry(c, s.p, j) == (if s.p.second then Ack else VoteKind(c, j, s.p.round))
            && s.ch[j].upGot == |s.ch[j].up| && !Busy(c, s.p, j)
  {
    RunCount(c, acts);
    var s := Run(c, acts).value;
    assert ConnCount(c, s.p, s.ch[j], j) && ConnInv(c, s.p, s.ch[j], j);
    CountedIsPosted(c, s, j);
    AtMostOne(c, s, j);
  }

  /** NO CLUSTER FAILURE WITHOUT A TIMEOUT. Neither phase fails the cluster; and unless
      stop_signal has cut a loop short, phase 1 returns "success" iff all voted yes and "fail"
      otherwise. */
  lemma VerdictWithoutTimeout(c: Config, acts: seq<Act>)
    requires ValidConfig(c) && Run(c, acts).Some?
    requires var p := Run(c, acts).value.p; p.pc.Resuming? && !p.timedOut
    ensures var p := Run(c, acts).value.p;
            && (if p.second then p.ok else p.status != ClusterFail)
            && (!p.second && !p.cut ==> p.status == if AllYes(c, p.round) then Success else Fail)
  {
    RunCount(c, acts);
    var s := Run(c, acts).value;
    if !s.p.second && !s.p.cut {
      forall j | 0 <= j < c.n && s.p.status == Success ensures c.vote(j, s.p.round) {
        assert ConnInv(c, s.p, s.ch[j], j);
      }
    }
  }

  // ------------------------------------------------------- polling, undisturbed, comes to an end

  /** What main has read and has still to read of the counters in this pass. */
  function SumFrom(count: seq<int>, t: nat): int
    decreases |count| - t
  {
    if t >= |count| then 0 else count[t] + SumFrom(count, t + 1)
  }

  /** k steps of wait_for_votes, fewer if it ends before, with nobody else moving. */
  function AfterPolls(c: Config, p: Program, k: nat): (q: Program)
    requires Shaped(c, p)
    ensures Shaped(c, q)
    decreases k
  {
    if k == 0 || !p.pc.Polling? then p else AfterPolls(c, MainNext(c, p, Poll, Msg(Lost, SERVER_ID)), k - 1)
  }

  /** The rest of a pass ends the wait exactly if the sum of the counters reaches n. */
  lemma {:induction false} PassOfPolls(c: Config, p: Program)
    requires Shaped(c, p) && p.pc.Polling? && p.pc.t <= c.workers
    ensures AfterPolls(c, p, c.workers - p.pc.t + 1)
            == p.(pc := if p.pc.total + SumFrom(p.count, p.pc.t) >= c.n then Pausing else Polling(0, 0))
    decreases c.workers - p.pc.t
  {
    var q := MainNext(c, p, Poll, Msg(Lost, SERVER_ID));
    if p.pc.t < c.workers {
      PassOfPolls(c, q);
    }
  }

  lemma {:induction false} PollsAdd(c: Config, p: Program, k: nat, l: nat)
    requires Shaped(c, p)
    ensures AfterPolls(c, p, k + l) == AfterPolls(c, AfterPolls(c, p, k), l)
    decreases k
  {
    if k > 0 && p.pc.Polling? {
      PollsAdd(c, MainNext(c, p, Poll, Msg(Lost, SERVER_ID)), k - 1, l);
    }
  }

  /** While nothing has timed out the counters are worth the connections counted. */
  lemma {:induction false} SumIsCounted(c: Config, s: Sys, t: nat)
    requires ValidConfig(c) && WellShaped(c, s) && CountInv(c, s) && Smooth(s.p) && StageOf(s.p.pc) == Collecting && t <= c.workers
    ensures |CountedBelow(c, s, t)| + SumFrom(s.p.count, t) == |CountedBelow(c, s, c.workers)|
    decreases c.workers - t
  {
    if t < c.workers {
      assert WorkerCount(c, s, t);
      BelowGrows(c, s, t);
      SumIsCounted(c, s, t + 1);
    }
  }

  /** Everything is counted exactly if the counters add up to n. */
  lemma AllCountedIff(c: Config, s: Sys)
    requires ValidConfig(c) && WellShaped(c, s) && CountInv(c, s) && Smooth(s.p) && StageOf(s.p.pc) == Collecting
    ensures SumFrom(s.p.count, 0) >= c.n <==> forall j :: 0 <= j < c.n ==> Counted(c, s.p, s.ch[j], j)
  {
    SumIsCounted(c, s, 0);
    assert CountedBelow(c, s, 0) == {};
    FullCount(c, s);
    if forall j :: 0 <= j < c.n ==> Counted(c, s.p, s.ch[j], j) {
      FullRange(c.n, CountedBelow(c, s, c.workers));
    }
  }

  /** If everything is counted, two passes at most end the wait and do nothing else. */
  lemma PollsEnd(c: Config, s: Sys)
    requires Inv(c, s) && CountInv(c, s) && Smooth(s.p) && s.p.pc.Polling?
    requires forall j :: 0 <= j < c.n ==> Counted(c, s.p, s.ch[j], j)
    ensures AfterPolls(c, s.p, c.workers - s.p.pc.t + 1 + c.workers + 1) == s.p.(pc := Pausing)
  {
    var rest := c.workers - s.p.pc.t + 1;
    AllCountedIff(c, s);
    PassOfPolls(c, s.p);
    PollsAdd(c, s.p, rest, c.workers + 1);
    var q := AfterPolls(c, s.p, rest);
    if q.pc == Polling(0, 0) {
      PassOfPolls(c, q);
    }
  }

  /** How many polls settle whether the wait ends. */
  function PollsNeeded(c: Config, p: Program): nat {
    if p.pc.Polling? && p.pc.t <= c.workers then c.workers - p.pc.t + 1 + c.workers + 1 else 0
  }

  ghost predicate EverythingCounted(c: Config, s: Sys)
    requires ValidConfig(c) && WellShaped(c, s)
  {
    forall j :: 0 <= j < c.n ==> Counted(c, s.p, s.ch[j], j)
  }

  lemma PollsSettle(c: Config, s: Sys)
    requires Inv(c, s) && CountInv(c, s) && Smooth(s.p) && s.p.pc.Polling?
    ensures EverythingCounted(c, s) ==> AfterPolls(c, s.p, PollsNeeded(c, s.p)) == s.p.(pc := Pausing)
    ensures s.p.pc == Polling(0, 0) ==> (AfterPolls(c, s.p, c.workers + 1).pc == Pausing <==> EverythingCounted(c, s))
  {
    if EverythingCounted(c, s) {
      PollsEnd(c, s);
    }
    if s.p.pc == Polling(0, 0) {
      AllCountedIff(c, s);
      PassOfPolls(c, s.p);
    }
  }

  /** Undisturbed polls are steps of a run. */
  lemma {:induction false} PollsAreSteps(c: Config, acts: seq<Act>, s: Sys, k: nat) returns (more: seq<Act>)
    requires ValidConfig(c) && WellShaped(c, s) && Run(c, acts) == Some(s)
    ensures forall i :: 0 <= i < |more| ==> more[i] == Main(Poll)
    ensures Run(c, acts + more) == Some(s.(p := AfterPolls(c, s.p, k)))
    decreases k
  {
    more := [];
    assert acts + more == acts;
    if k > 0 && s.p.pc.Polling? {
      PollIsStep(c, acts, s);
      var rest := PollsAreSteps(c, acts + [Main(Poll)], Apply(c, s, Main(Poll)), k - 1);
      more := [Main(Poll)] + rest;
      assert acts + more == acts + [Main(Poll)] + rest;
    }
  }

  lemma PollIsStep(c: Config, acts: seq<Act>, s: Sys)
    requires ValidConfig(c) && WellShaped(c, s) && Run(c, acts) == Some(s) && s.p.pc.Polling?
    ensures Enabled(c, s, Main(Poll)) && Run(c, acts + [Main(Poll)]) == Some(Apply(c, s, Main(Poll)))
    ensures Apply(c, s, Main(Poll)) == s.(p := MainNext(c, s.p, Poll, Msg(Lost, SERVER_ID)))
  {
    assert (acts + [Main(Poll)])[..|acts|] == acts;
  }

  /** THE WAIT ENDS. In a run in which no wait has timed out, main is in wait_for_votes and every
      connection is counted: then main's own polls, with nobody else moving and no timeout, end
      the wait. And a whole pass of polls that nobody disturbs ends it only then. */
  lemma WaitEnds(c: Config, acts: seq<Act>) returns (more: seq<Act>)
    requires ValidConfig(c) && Run(c, acts).Some?
    ensures forall i :: 0 <= i < |more| ==> more[i] == Main(Poll)
    ensures Run(c, acts + more).Some?
    ensures var s, s' := Run(c, acts).value, Run(c, acts + more).value;
            s.p.pc.Polling? && !s.p.timedOut && EverythingCounted(c, s) ==> s' == s.(p := s.p.(pc := Pausing)) && !s'.p.timedOut
    ensures var s := Run(c, acts).value;
            s.p.pc == Polling(0, 0) && !s.p.timedOut ==>
              (AfterPolls(c, s.p, c.workers + 1).pc == Pausing <==> EverythingCounted(c, s))
  {
    RunCount(c, acts);
    var s := Run(c, acts).value;
    more := PollsAreSteps(c, acts, s, PollsNeeded(c, s.p));
    if s.p.pc.Polling? && !s.p.timedOut {
      PollsSettle(c, s);
    }
  }
}
