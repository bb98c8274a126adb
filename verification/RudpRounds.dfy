/** Whole phases and rounds over reliable UDP, from where nothing is under way. */
module RudpRounds {
  import opened Messages
  import opened Channel
  import opened TwoPhase
  import opened FifoSystem
  import opened CommitInvariant
  import opened CommitTheorems
  import opened Transport
  import opened RudpEndpoint
  import opened RudpLink
  import opened RudpSystem
  import opened RudpRuns
  import opened RudpExchange
  import opened VoteCount

  /** Nothing is under way: `base` messages went down and one more up on every link, the workers
      are in their passes and the clients wait for the phase's message. */
  ghost predicate Quiet(c: Config, r0: RSys, rs: RSys, base: nat, second: bool) {
    && At(c, r0, rs) && RShaped(c, rs) && !rs.p.stop && AllPass(rs.p)
    && forall j :: 0 <= j < c.n ==> Even(rs.links[j], base) && Waits(rs.p.clients[j].pc, second)
  }

  lemma {:induction false} ClearingAll(c: Config, r0: RSys, rs: RSys, k: nat, base: nat) returns (rt: RSys)
    requires Quiet(c, r0, rs, base, rs.p.second) && rs.p.pc == Clearing(k) && k <= c.n
    requires rs.p.second ==> rs.p.status != ClusterFail
    ensures Quiet(c, r0, rt, base, rs.p.second) && rt.p.pc == Stamping(0)
    ensures rt.p.second == rs.p.second && rt.p.round == rs.p.round
    decreases c.n - k
  {
    rt := Quietly(c, r0, rs, Clear);
    if k < c.n {
      rt := ClearingAll(c, r0, rt, k + 1, base);
    }
  }

  lemma StampOne(c: Config, r0: RSys, rs: RSys, k: nat, base: nat) returns (rt: RSys)
    requires Quiet(c, r0, rs, base, rs.p.second) && rs.p.pc == Stamping(k) && k < c.n
    ensures Quiet(c, r0, rt, base, rs.p.second) && rt.p == rs.p.(pc := Stamping(k + 1))
  {
    var m := Payload(Outgoing(rs.p), 0, 0, 0);
    rt := Calls(c, r0, rs, k, Main(Stamp), BLANK, m);
    StampIsBegin(c, rs, rt, k, base, m);
  }

  lemma StampIsBegin(c: Config, rs: RSys, rt: RSys, k: nat, base: nat, m: Payload)
    requires RShaped(c, rs) && rs.p.pc == Stamping(k) && k < c.n && !rs.p.stop && Even(rs.links[k], base)
    requires rt.p == MainNext(c, rs.p, Stamp, Handed(rs.links[k], Begin(k, Outgoing(rs.p)), BLANK))
    requires rt.links == rs.links[k := OnLink(rs.links[k], Begin(k, Outgoing(rs.p)), BLANK, m)]
    ensures rt.p == rs.p.(pc := Stamping(k + 1)) && Even(rt.links[k], base)
    ensures forall j :: 0 <= j < c.n && j != k ==> rt.links[j] == rs.links[j]
  {
  }

  lemma {:induction false} StampingAll(c: Config, r0: RSys, rs: RSys, k: nat, base: nat) returns (rt: RSys)
    requires Quiet(c, r0, rs, base, rs.p.second) && rs.p.pc == Stamping(k) && k <= c.n
    ensures Quiet(c, r0, rt, base, rs.p.second) && rt.p == rs.p.(pc := Sending({}, {}))
    decreases c.n - k
  {
    if k < c.n {
      rt := StampOne(c, r0, rs, k, base);
      rt := StampingAll(c, r0, rt, k + 1, base);
    } else {
      rt := Quietly(c, r0, rs, Stamp);
    }
  }

  function Below(k: nat): (r: set<nat>)
    ensures forall i: nat :: i in r <==> i < k
  {
    if k == 0 then {} else Below(k - 1) + {k - 1}
  }

  /** The first k connections have had their exchange. */
  ghost predicate Exchanged(c: Config, r0: RSys, rs: RSys, k: nat) {
    && At(c, r0, rs) && RShaped(c, rs) && !rs.p.stop && AllPass(rs.p) && rs.p.pc == Sending(Below(k), Below(k))
    && (forall j :: 0 <= j < k && j < c.n ==> Even(rs.links[j], Base(rs.p) + 1) && Waits(rs.p.clients[j].pc, !rs.p.second))
    && (forall j :: k <= j < c.n ==> Even(rs.links[j], Base(rs.p)) && Waits(rs.p.clients[j].pc, rs.p.second))
  }

  lemma ExchangeNext(c: Config, r0: RSys, rs: RSys, k: nat) returns (rt: RSys)
    requires Exchanged(c, r0, rs, k) && k < c.n
    ensures Exchanged(c, r0, rt, k + 1)
    ensures rt.p.round == rs.p.round && rt.p.second == rs.p.second && rt.p.status == rs.p.status
  {
    rt := Exchange(c, r0, rs, k, Below(k), Below(k));
    assert Below(k) + {k} == Below(k + 1);
  }

  lemma {:induction false} Exchanging(c: Config, r0: RSys, rs: RSys, k: nat) returns (rt: RSys)
    requires Exchanged(c, r0, rs, k) && k <= c.n
    ensures Exchanged(c, r0, rt, c.n)
    ensures rt.p.round == rs.p.round && rt.p.second == rs.p.second && rt.p.status == rs.p.status
    decreases c.n - k
  {
    rt := rs;
    if k < c.n {
      rt := ExchangeNext(c, r0, rs, k);
      rt := Exchanging(c, r0, rt, k + 1);
    }
  }

  /** The current phase has not failed the cluster. */
  predicate Succeeds(p: Program) {
    if p.second then p.ok else p.status != ClusterFail
  }

  /** After the exchanges every scoreboard entry is the vote or the ack of its client. */
  lemma EntryIsSet(c: Config, rs: RSys, k: nat)
    requires RInv(c, rs) && rs.p.pc == Scanning(k) && k < c.n && !rs.p.stop && AllPass(rs.p)
    requires forall j :: 0 <= j < c.n ==> Even(rs.links[j], Base(rs.p) + 1)
    ensures rs.p.board[k] in if rs.p.second then {Ack} else {VoteYes, VoteNo}
  {
    var j := OwnerOfEntry(c, k);
    assert ConnInv(c, rs.p, Abstract(rs).ch[j], j);
  }

  lemma NextEntry(c: Config, r0: RSys, rs: RSys, k: nat)
    requires Quiet(c, r0, rs, Base(rs.p) + 1, !rs.p.second) && rs.p.pc == Scanning(k) && k < c.n && Succeeds(rs.p)
    ensures var q := ScanStep(c, rs.p); q.pc == Scanning(k + 1) && Succeeds(q) && q.second == rs.p.second && q.round == rs.p.round
  {
    Facts(c, r0, rs);
    EntryIsSet(c, rs, k);
  }

  lemma ScanOne(c: Config, r0: RSys, rs: RSys, k: nat) returns (rt: RSys)
    requires Quiet(c, r0, rs, Base(rs.p) + 1, !rs.p.second) && rs.p.pc == Scanning(k) && k < c.n && Succeeds(rs.p)
    ensures Quiet(c, r0, rt, Base(rt.p) + 1, !rt.p.second) && rt.p.pc == Scanning(k + 1) && Succeeds(rt.p)
    ensures rt.p.round == rs.p.round && rt.p.second == rs.p.second
  {
    NextEntry(c, r0, rs, k);
    rt := Quietly(c, r0, rs, Scan);
  }

  lemma {:induction false} ScanningAll(c: Config, r0: RSys, rs: RSys, k: nat) returns (rt: RSys)
    requires Quiet(c, r0, rs, Base(rs.p) + 1, !rs.p.second) && rs.p.pc == Scanning(k) && k <= c.n && Succeeds(rs.p)
    ensures Quiet(c, r0, rt, Base(rt.p) + 1, !rt.p.second) && rt.p.pc == Zeroing(0) && Succeeds(rt.p)
    ensures rt.p.round == rs.p.round && rt.p.second == rs.p.second
    decreases c.n - k
  {
    if k < c.n {
      rt := ScanOne(c, r0, rs, k);
      rt := ScanningAll(c, r0, rt, k + 1);
    } else {
      rt := Quietly(c, r0, rs, Scan);
    }
  }

  lemma {:induction false} ZeroingAll(c: Config, r0: RSys, rs: RSys, t: nat) returns (rt: RSys)
    requires Quiet(c, r0, rs, Base(rs.p) + 1, !rs.p.second) && rs.p.pc == Zeroing(t) && t <= c.workers && Succeeds(rs.p)
    ensures Quiet(c, r0, rt, Base(rt.p) + 1, !rt.p.second) && rt.p.pc == Resuming && Succeeds(rt.p)
    ensures rt.p.round == rs.p.round && rt.p.second == rs.p.second
    decreases c.workers - t
  {
    rt := Quietly(c, r0, rs, Zero);
    if t < c.workers {
      rt := ZeroingAll(c, r0, rt, t + 1);
    }
  }

  /** The exchanges are over: everything sent in this phase has been answered and counted. */
  ghost predicate Answered(c: Config, r0: RSys, rs: RSys) {
    Quiet(c, r0, rs, Base(rs.p) + 1, !rs.p.second) && (rs.p.second || rs.p.status == Success)
  }

  /** From the end of the exchanges to the scan. */
  lemma PausingAll(c: Config, r0: RSys, rs: RSys) returns (rt: RSys)
    requires Answered(c, r0, rs) && rs.p.pc.Sending? && AllDone(c, rs.p.pc.done)
    ensures Quiet(c, r0, rt, Base(rt.p) + 1, !rt.p.second) && rt.p.pc == Scanning(0) && Succeeds(rt.p)
    ensures rt.p.round == rs.p.round && rt.p.second == rs.p.second
  {
    rt := Quietly(c, r0, rs, SendExit);
    rt := FromPolling(c, r0, rt);
  }

  /** The wait for the answers ends: by main's polls alone, or if a wait has timed out before,
      so that the counters may be off, by another timeout if need be. */
  lemma FromPolling(c: Config, r0: RSys, rs: RSys) returns (rt: RSys)
    requires Answered(c, r0, rs) && rs.p.pc.Polling?
    ensures Quiet(c, r0, rt, Base(rt.p) + 1, !rt.p.second) && rt.p.pc == Scanning(0) && Succeeds(rt.p)
    ensures rt.p.round == rs.p.round && rt.p.second == rs.p.second
  {
    if rs.p.timedOut {
      rt := PollsOrTimeout(c, r0, rs);
    } else {
      rt := PollsAlone(c, r0, rs);
    }
    rt := ToScan(c, r0, rt);
  }

  lemma PollOne(c: Config, r0: RSys, rs: RSys) returns (rt: RSys)
    requires Answered(c, r0, rs) && rs.p.pc.Polling?
    ensures Answered(c, r0, rt) && rt == rs.(p := MainNext(c, rs.p, Poll, Msg(Lost, SERVER_ID)))
    ensures rt.p == rs.p.(pc := PollPc(c, rs.p))
  {
    rt := Quietly(c, r0, rs, Poll);
  }

  lemma {:induction false} PollsOrTimeout(c: Config, r0: RSys, rs: RSys) returns (rt: RSys)
    requires Answered(c, r0, rs) && rs.p.pc.Polling? && rs.p.timedOut
    ensures Answered(c, r0, rt) && rt.p.pc == Pausing && rt.p.round == rs.p.round && rt.p.second == rs.p.second
    decreases if rs.p.pc.t <= c.workers then c.workers - rs.p.pc.t else 0
  {
    var t := rs.p.pc.t;
    rt := PollOne(c, r0, rs);
    if t < c.workers {
      rt := PollsOrTimeout(c, r0, rt);
    } else if rt.p.pc == Polling(0, 0) {
      rt := Quietly(c, r0, rt, Timeout);
    }
  }

  lemma {:induction false} PollMany(c: Config, r0: RSys, rs: RSys, k: nat) returns (rt: RSys)
    requires Answered(c, r0, rs)
    ensures Answered(c, r0, rt) && rt.p == AfterPolls(c, rs.p, k)
    decreases k
  {
    rt := rs;
    if k > 0 && rs.p.pc.Polling? {
      rt := PollOne(c, r0, rs);
      rt := PollMany(c, r0, rt, k - 1);
    }
  }

  lemma PollsAlone(c: Config, r0: RSys, rs: RSys) returns (rt: RSys)
    requires Answered(c, r0, rs) && rs.p.pc.Polling? && !rs.p.timedOut
    ensures Answered(c, r0, rt) && rt.p.pc == Pausing && rt.p.round == rs.p.round && rt.p.second == rs.p.second
  {
    var k := PollsEnough(c, r0, rs);
    rt := PollMany(c, r0, rs, k);
  }

  lemma PollsEnough(c: Config, r0: RSys, rs: RSys) returns (k: nat)
    requires Answered(c, r0, rs) && rs.p.pc.Polling? && !rs.p.timedOut
    ensures AfterPolls(c, rs.p, k) == rs.p.(pc := Pausing)
  {
    AllAreCounted(c, r0, rs);
    k := AllInEnough(c, Abstract(rs));
  }

  /** Every connection has been counted by its worker. */
  ghost predicate AllIn(c: Config, s: Sys) {
    && ValidConfig(c) && WellShaped(c, s) && Inv(c, s) && CountInv(c, s) && Smooth(s.p)
    && forall j :: 0 <= j < c.n ==> Counted(c, s.p, s.ch[j], j)
  }

  lemma AllInEnough(c: Config, s: Sys) returns (k: nat)
    requires AllIn(c, s) && s.p.pc.Polling?
    ensures AfterPolls(c, s.p, k) == s.p.(pc := Pausing)
  {
    PollsEnd(c, s);
    k := c.workers - s.p.pc.t + 1 + c.workers + 1;
  }

  lemma AllAreCounted(c: Config, r0: RSys, rs: RSys)
    requires Answered(c, r0, rs) && rs.p.pc.Polling? && !rs.p.timedOut
    ensures AllIn(c, Abstract(rs))
  {
    CountFacts(c, r0, rs);
    forall j | 0 <= j < c.n ensures Counted(c, rs.p, Abstract(rs).ch[j], j) {
      assert Even(rs.links[j], Base(rs.p) + 1);
    }
  }

  lemma ToScan(c: Config, r0: RSys, rs: RSys) returns (rt: RSys)
    requires Answered(c, r0, rs) && rs.p.pc == Pausing
    ensures Quiet(c, r0, rt, Base(rt.p) + 1, !rt.p.second) && rt.p.pc == Scanning(0) && Succeeds(rt.p)
    ensures rt.p.round == rs.p.round && rt.p.second == rs.p.second
  {
    rt := Quietly(c, r0, rs, Pause);
  }

  /** A PHASE. From the clearing of the scoreboard to the end of the phase, without failing the
      cluster. */
  lemma Phase(c: Config, r0: RSys, rs: RSys) returns (rt: RSys)
    requires Quiet(c, r0, rs, Base(rs.p), rs.p.second) && rs.p.pc.Clearing? && rs.p.pc.k <= c.n
    requires if rs.p.second then rs.p.status != ClusterFail else rs.p.status == Success
    ensures Quiet(c, r0, rt, Base(rt.p) + 1, !rt.p.second) && rt.p.pc == Resuming && Succeeds(rt.p)
    ensures rt.p.round == rs.p.round && rt.p.second == rs.p.second
  {
    rt := ClearingAll(c, r0, rs, rs.p.pc.k, Base(rs.p));
    Facts(c, r0, rt);
    rt := FromStamping(c, r0, rt);
  }

  lemma FromStamping(c: Config, r0: RSys, rs: RSys) returns (rt: RSys)
    requires Quiet(c, r0, rs, Base(rs.p), rs.p.second) && rs.p.pc.Stamping? && rs.p.pc.k <= c.n
    requires rs.p.second || rs.p.status == Success
    ensures Quiet(c, r0, rt, Base(rt.p) + 1, !rt.p.second) && rt.p.pc == Resuming && Succeeds(rt.p)
    ensures rt.p.round == rs.p.round && rt.p.second == rs.p.second
  {
    var s2 := StampingAll(c, r0, rs, rs.p.pc.k, Base(rs.p));
    assert Below(0) == {};
    var s3 := Exchanging(c, r0, s2, 0);
    var s4 := PausingAll(c, r0, s3);
    rt := FromScanning(c, r0, s4);
  }

  lemma FromScanning(c: Config, r0: RSys, rs: RSys) returns (rt: RSys)
    requires Quiet(c, r0, rs, Base(rs.p) + 1, !rs.p.second) && rs.p.pc == Scanning(0) && Succeeds(rs.p)
    ensures Quiet(c, r0, rt, Base(rt.p) + 1, !rt.p.second) && rt.p.pc == Resuming && Succeeds(rt.p)
    ensures rt.p.round == rs.p.round && rt.p.second == rs.p.second
  {
    rt := ScanningAll(c, r0, rs, 0);
    rt := ZeroingAll(c, r0, rt, 0);
  }

  /** Between two rounds. */
  ghost predicate Boundary(c: Config, r0: RSys, rs: RSys) {
    Quiet(c, r0, rs, 2 * rs.p.round, false) && rs.p.pc == RoundTop && !rs.p.second
  }

  lemma Round(c: Config, r0: RSys, rs: RSys) returns (rt: RSys)
    requires Boundary(c, r0, rs)
    ensures Boundary(c, r0, rt) && rt.p.round == rs.p.round + 1
  {
    rt := FirstPhase(c, r0, rs);
    rt := Phase(c, r0, rt);
    rt := Quietly(c, r0, rt, Resume);
  }

  lemma FirstPhase(c: Config, r0: RSys, rs: RSys) returns (rt: RSys)
    requires Boundary(c, r0, rs)
    ensures Quiet(c, r0, rt, Base(rt.p), true) && rt.p.second && rt.p.pc == Clearing(0) && rt.p.status != ClusterFail
    ensures rt.p.round == rs.p.round
  {
    rt := Quietly(c, r0, rs, NextRound);
    rt := Phase(c, r0, rt);
    rt := Quietly(c, r0, rt, Resume);
  }

  lemma {:induction false} Rounds(c: Config, r0: RSys, rs: RSys, k: nat) returns (rt: RSys)
    requires Boundary(c, r0, rs)
    ensures Boundary(c, r0, rt) && rt.p.round == rs.p.round + k
  {
    rt := rs;
    if k > 0 {
      rt := Rounds(c, r0, rs, k - 1);
      rt := Round(c, r0, rt);
    }
  }
}
