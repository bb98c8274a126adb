/** The program over reliable UDP gets to the next top of its round loop from every reachable
    state, but for the states from which it cannot: those in which a write has lost its race
    or the scan has failed the cluster. */
module RudpProgress {
  import opened Messages
  import opened Channel
  import opened TwoPhase
  import opened FifoSystem
  import opened CommitInvariant
  import opened CommitTheorems
  import opened Transport
  import opened RudpEndpoint
  import opened RudpLink
  import opened RudpSystem
  import opened RudpRuns
  import opened RudpExchange
  import opened RudpRounds
  import opened StopSignal

  // --------------------------------------------------------------- the workers

  /** The workers may go on: main is not pausing them. */
  ghost predicate Working(c: Config, r0: RSys, rs: RSys) {
    && At(c, r0, rs) && RShaped(c, rs) && !rs.p.stop && !rs.p.pc.Connecting?
    && forall t :: 0 <= t < |rs.p.workers| ==> !rs.p.workers[t].Exited?
  }

  /** What the workers' steps other than fetching leave alone. */
  predicate OnlyWorkers(c: Config, rs: RSys, rt: RSys)
    requires RShaped(c, rs) && RShaped(c, rt)
  {
    && rt.p == rs.p.(workers := rt.p.workers, count := rt.p.count, board := rt.p.board)
    && forall j :: 0 <= j < c.n ==> rt.links[j] == rs.links[j].(s := rs.links[j].s.(slot := rt.links[j].s.slot))
  }

  /** A worker that holds a message posts it. */
  lemma ToPosted(c: Config, r0: RSys, rs: RSys, t: nat) returns (rt: RSys)
    requires Working(c, r0, rs) && t < c.workers
    ensures Working(c, r0, rt) && OnlyWorkers(c, rs, rt) && !rt.p.workers[t].Got?
    ensures rt.p.workers == rs.p.workers[t := rt.p.workers[t]]
  {
    Facts(c, r0, rs);
    WorkerFacts(c, rs, t);
    rt := rs;
    if rs.p.workers[t].Got? {
      rt := Works(c, r0, rs, t, Post);
    }
  }

  /** A worker that has posted a message releases it. */
  lemma ToReleased(c: Config, r0: RSys, rs: RSys, t: nat) returns (rt: RSys)
    requires Working(c, r0, rs) && t < c.workers && !rs.p.workers[t].Got?
    ensures Working(c, r0, rt) && OnlyWorkers(c, rs, rt) && !rt.p.workers[t].Got? && !rt.p.workers[t].Posted?
    ensures rt.p.workers == rs.p.workers[t := rt.p.workers[t]]
  {
    rt := rs;
    if rs.p.workers[t].Posted? {
      Facts(c, r0, rs);
      WorkerFacts(c, rs, t);
      var j := rs.p.workers[t].j;
      rt := Calls(c, r0, rs, j, Worker(t, EndRead), BLANK, BLANK.msg);
      ReleaseIsWork(c, rs, rt, t, j);
    }
  }

  /** A worker that has released its message counts it. */
  lemma ToCounted(c: Config, r0: RSys, rs: RSys, t: nat) returns (rt: RSys)
    requires Working(c, r0, rs) && t < c.workers && (rs.p.workers[t].Released? || rs.p.workers[t].Adding?)
    ensures Working(c, r0, rt) && OnlyWorkers(c, rs, rt) && rt.p.workers == rs.p.workers[t := Pass]
  {
    rt := rs;
    if rs.p.workers[t].Released? {
      rt := Works(c, r0, rt, t, Load);
    }
    rt := Works(c, r0, rt, t, Store);
  }

  /** A worker that is not in its pass gets there. */
  lemma ToPass(c: Config, r0: RSys, rs: RSys, t: nat) returns (rt: RSys)
    requires Working(c, r0, rs) && !rs.p.pause && t < c.workers && !rs.p.workers[t].Got? && !rs.p.workers[t].Posted?
    ensures Working(c, r0, rt) && OnlyWorkers(c, rs, rt) && rt.p.workers == rs.p.workers[t := Pass]
  {
    rt := rs;
    if rs.p.workers[t].Resetting? || rs.p.workers[t].Top? {
      rt := ToGo(c, r0, rs, t);
    } else if rs.p.workers[t] != Pass {
      rt := ToCounted(c, r0, rs, t);
    }
  }

  /** A worker at the top of its loop begins a pass, and so does one that clears its counter. */
  lemma ToGo(c: Config, r0: RSys, rs: RSys, t: nat) returns (rt: RSys)
    requires Working(c, r0, rs) && !rs.p.pause && t < c.workers && (rs.p.workers[t].Resetting? || rs.p.workers[t].Top?)
    ensures Working(c, r0, rt) && OnlyWorkers(c, rs, rt) && rt.p.workers == rs.p.workers[t := Pass]
  {
    rt := rs;
    if rs.p.workers[t].Resetting? {
      rt := Works(c, r0, rt, t, Reset);
    }
    rt := Works(c, r0, rt, t, SeeGo);
  }

  lemma {:induction false} AllToPass(c: Config, r0: RSys, rs: RSys, k: nat) returns (rt: RSys)
    requires Working(c, r0, rs) && !rs.p.pause && k <= c.workers
    requires forall t :: k <= t < c.workers ==> rs.p.workers[t] == Pass
    ensures Working(c, r0, rt) && OnlyWorkers(c, rs, rt) && AllPass(rt.p)
    decreases k
  {
    rt := rs;
    if k > 0 {
      rt := ToPosted(c, r0, rs, k - 1);
      rt := ToReleased(c, r0, rt, k - 1);
      rt := ToPass(c, r0, rt, k - 1);
      rt := AllToPass(c, r0, rt, k - 1);
    }
  }

  lemma {:induction false} NoneHolds(c: Config, r0: RSys, rs: RSys, k: nat) returns (rt: RSys)
    requires Working(c, r0, rs) && k <= c.workers
    requires forall t :: k <= t < c.workers ==> !rs.p.workers[t].Got?
    ensures Working(c, r0, rt) && OnlyWorkers(c, rs, rt) && forall t :: 0 <= t < c.workers ==> !rt.p.workers[t].Got?
    decreases k
  {
    rt := rs;
    if k > 0 {
      rt := ToPosted(c, r0, rs, k - 1);
      rt := NoneHolds(c, r0, rt, k - 1);
    }
  }

  ghost predicate Live(c: Config, rs: RSys) {
    && RShaped(c, rs) && !rs.p.stop
    && forall j :: 0 <= j < c.n ==> rs.p.clients[j].pc != Dead
  }

  lemma WorkersReady(c: Config, r0: RSys, rs: RSys) returns (rt: RSys)
    requires At(c, r0, rs) && Live(c, rs) && !rs.p.pause && !rs.p.pc.Connecting?
    ensures At(c, r0, rt) && Live(c, rt) && OnlyWorkers(c, rs, rt) && AllPass(rt.p)
  {
    Facts(c, r0, rs);
    rt := AllToPass(c, r0, rs, c.workers);
  }

  // ----------------------------------------------------- the rest of the round

  /** Where nothing is being written, everything is even. */
  lemma QuietHere(c: Config, r0: RSys, rs: RSys)
    requires At(c, r0, rs) && Live(c, rs) && AllPass(rs.p)
    requires rs.p.pc.RoundTop? || rs.p.pc.Clearing? || rs.p.pc.Stamping? || rs.p.pc.Polling? || rs.p.pc.Pausing?
             || (rs.p.pc.Sending? && AllDone(c, rs.p.pc.done))
    ensures var down := if rs.p.pc.RoundTop? || rs.p.pc.Clearing? || rs.p.pc.Stamping? then Base(rs.p) else Base(rs.p) + 1;
            Quiet(c, r0, rs, down, down % 2 == 1)
  {
    var down := if rs.p.pc.RoundTop? || rs.p.pc.Clearing? || rs.p.pc.Stamping? then Base(rs.p) else Base(rs.p) + 1;
    Facts(c, r0, rs);
    forall j | 0 <= j < c.n ensures Even(rs.links[j], down) && Waits(rs.p.clients[j].pc, down % 2 == 1) {
      EvenHere(c, rs, j);
    }
  }

  lemma EvenHere(c: Config, rs: RSys, j: nat)
    requires RInv(c, rs) && !rs.p.stop && AllPass(rs.p) && j < c.n && rs.p.clients[j].pc != Dead
    requires rs.p.pc.RoundTop? || rs.p.pc.Clearing? || rs.p.pc.Stamping? || rs.p.pc.Polling? || rs.p.pc.Pausing?
             || (rs.p.pc.Sending? && AllDone(c, rs.p.pc.done))
    ensures var down := if rs.p.pc.RoundTop? || rs.p.pc.Clearing? || rs.p.pc.Stamping? then Base(rs.p) else Base(rs.p) + 1;
            Even(rs.links[j], down) && Waits(rs.p.clients[j].pc, down % 2 == 1)
  {
    assert Couple(c, rs.p, rs.links[j], j);
    IdleIsEven(c, rs, j);
  }

  lemma PhaseParity(p: Program)
    ensures Base(p) % 2 == 1 <==> p.second
    ensures (Base(p) + 1) % 2 == 1 <==> !p.second
  {
  }

  /** The exchange on connection j is begun or finished. */
  lemma Drive(c: Config, r0: RSys, rs: RSys, j: nat, put: set<nat>, done: set<nat>) returns (rt: RSys)
    requires At(c, r0, rs) && rs.p.pc == Sending(put, done) && !rs.p.stop && AllPass(rs.p) && j < c.n && j !in done
    requires !RaceOver(rs.links[j]) && rs.p.clients[j].pc != Dead
    ensures At(c, r0, rt) && RShaped(c, rt) && Elsewhere(c, rs, rt, j) && AllPass(rt.p)
    ensures rt.p.pc == Sending(put + {j}, done + {j}) && rt.p.clients[j].pc != Dead
  {
    Facts(c, r0, rs);
    assert Couple(c, rs.p, rs.links[j], j);
    if j in put {
      rt := Look(c, r0, rs, j, put, done);
      rt := FinishExchange(c, r0, rt, j, put, done);
      assert put + {j} == put;
    } else {
      IdleIsEven(c, rs, j);
      PhaseParity(rs.p);
      rt := Exchange(c, r0, rs, j, put, done);
    }
  }

  /** Main comes to look at a write that is under way, having recorded it. */
  lemma Look(c: Config, r0: RSys, rs: RSys, j: nat, put: set<nat>, done: set<nat>) returns (rt: RSys)
    requires At(c, r0, rs) && rs.p.pc == Sending(put, done) && !rs.p.stop && AllPass(rs.p) && j < c.n && j !in done && j in put
    requires !RaceOver(rs.links[j]) && rs.p.clients[j].pc != Dead
    ensures At(c, r0, rt) && Looking(c, rt, j, put, done) && Elsewhere(c, rs, rt, j)
  {
    Facts(c, r0, rs);
    assert Couple(c, rs.p, rs.links[j], j);
    assert put + {j} == put;
    var s1 := Quietly(c, r0, rs, Pick(j));
    rt := Quietly(c, r0, s1, EndWrite);
    if rt.links[j].stage == Sent {
      rt := Go(c, r0, rt, Inside(j, ServerRecord));
    }
  }

  ghost predicate NoRaceOver(c: Config, rs: RSys) {
    RShaped(c, rs) && forall j :: 0 <= j < c.n ==> !RaceOver(rs.links[j])
  }

  lemma DriveNext(c: Config, r0: RSys, rs: RSys, k: nat) returns (rt: RSys)
    requires At(c, r0, rs) && RShaped(c, rs) && rs.p.pc.Sending? && !rs.p.stop && AllPass(rs.p) && k < c.n
    requires !RaceOver(rs.links[k]) && rs.p.clients[k].pc != Dead
    ensures At(c, r0, rt) && RShaped(c, rt) && rt.p.pc.Sending? && AllPass(rt.p) && Elsewhere(c, rs, rt, k)
    ensures rs.p.pc.done <= rt.p.pc.done && k in rt.p.pc.done && rt.p.clients[k].pc != Dead
  {
    rt := rs;
    if k !in rs.p.pc.done {
      rt := Drive(c, r0, rs, k, rs.p.pc.put, rs.p.pc.done);
    }
  }

  /** The connections from k on are driven to the end of their exchange. */
  lemma {:induction false} DriveAll(c: Config, r0: RSys, rs: RSys, k: nat) returns (rt: RSys)
    requires At(c, r0, rs) && RShaped(c, rs) && rs.p.pc.Sending? && !rs.p.stop && AllPass(rs.p) && k <= c.n
    requires forall j :: 0 <= j < c.n ==> rs.p.clients[j].pc != Dead
    requires forall j :: 0 <= j < k ==> j in rs.p.pc.done
    requires forall j :: k <= j < c.n ==> !RaceOver(rs.links[j])
    ensures At(c, r0, rt) && RShaped(c, rt) && rt.p.pc.Sending? && AllDone(c, rt.p.pc.done) && !rt.p.stop && AllPass(rt.p)
    ensures forall j :: 0 <= j < c.n ==> rt.p.clients[j].pc != Dead
    ensures rt.p.round == rs.p.round && rt.p.second == rs.p.second && rt.p.status == rs.p.status
    decreases c.n - k
  {
    rt := rs;
    if k < c.n {
      rt := DriveNext(c, r0, rs, k);
      rt := DriveAll(c, r0, rt, k + 1);
    }
  }

  /** A step of main that is no call and does not raise stop_signal. */
  lemma Lively(c: Config, r0: RSys, rs: RSys, a: MainAct) returns (rt: RSys)
    requires At(c, r0, rs) && Live(c, rs) && CanMain(c, rs.p, a) && MainEffect(c, rs.p, a) == Tau
    requires !MainNext(c, rs.p, a, Msg(Lost, SERVER_ID)).stop && !a.Timeout?
    ensures rt == rs.(p := MainNext(c, rs.p, a, Msg(Lost, SERVER_ID))) && At(c, r0, rt) && Live(c, rt)
  {
    rt := Quietly(c, r0, rs, a);
    MainKeepsClients(c, rs.p, a, Msg(Lost, SERVER_ID));
  }

  lemma MainKeepsClients(c: Config, p: Program, a: MainAct, m: Msg)
    requires Shaped(c, p) && CanMain(c, p, a)
    ensures MainNext(c, p, a, m).clients == p.clients
  {
    if IsSending(a) {
      SendingKeepsClients(c, p, a, m);
    } else if a.Scan? || a.Clear? || a.Resume? || a.NextRound? {
      PhaseKeepsClients(c, p, a, m);
    }
  }

  lemma SendingKeepsClients(c: Config, p: Program, a: MainAct, m: Msg)
    requires Shaped(c, p) && CanMain(c, p, a) && IsSending(a)
    ensures MainNext(c, p, a, m).clients == p.clients
  {
  }

  lemma PhaseKeepsClients(c: Config, p: Program, a: MainAct, m: Msg)
    requires Shaped(c, p) && CanMain(c, p, a) && (a.Scan? || a.Clear? || a.Resume? || a.NextRound?)
    ensures MainNext(c, p, a, m).clients == p.clients
  {
  }

  /** Main leaves the middle of a call: connection j is then one to which it has written. */
  lemma ToSending(c: Config, r0: RSys, rs: RSys) returns (rt: RSys)
    requires At(c, r0, rs) && Live(c, rs) && NoRaceOver(c, rs) && InSending(rs.p.pc)
    ensures At(c, r0, rt) && Live(c, rt) && NoRaceOver(c, rt) && rt.p.pc.Sending?
    ensures rt.p.round == rs.p.round && rt.p.second == rs.p.second && rt.p.status == rs.p.status
  {
    rt := rs;
    if rs.p.pc.Writing? {
      rt := ToChecking(c, r0, rs);
    }
    if rt.p.pc.Checking? {
      rt := Lively(c, r0, rt, Again);
    }
  }

  lemma ToChecking(c: Config, r0: RSys, rs: RSys) returns (rt: RSys)
    requires At(c, r0, rs) && Live(c, rs) && NoRaceOver(c, rs) && rs.p.pc.Writing?
    ensures At(c, r0, rt) && Live(c, rt) && NoRaceOver(c, rt) && rt.p.pc.Checking?
    ensures rt.p.round == rs.p.round && rt.p.second == rs.p.second && rt.p.status == rs.p.status
  {
    var j := rs.p.pc.j;
    if j in rs.p.pc.put {
      rt := Lively(c, r0, rs, EndWrite);
    } else {
      Facts(c, r0, rs);
      rt := Calls(c, r0, rs, j, Main(EndWrite), BLANK, BLANK.msg);
      FreshWrite(c, rs, j);
    }
  }

  lemma FreshWrite(c: Config, rs: RSys, j: nat)
    requires RInv(c, rs) && rs.p.pc.Writing? && rs.p.pc.j == j && j < c.n && j !in rs.p.pc.put && !rs.p.stop
    ensures !RaceOver(LinkStep(rs.links[j], ServerSend))
  {
    assert Couple(c, rs.p, rs.links[j], j);
  }

  /** A vote of this round that is still to be scanned from entry k on is no. */
  ghost predicate NoFollows(c: Config, p: Program, k: nat) {
    exists j :: 0 <= j < c.n && j < |c.ids| && c.ids[j] - 1 >= k && !c.vote(j, p.round)
  }

  /** Main can still get to the end of the phase without failing the cluster: nothing is missing
      in what it has scanned, or a no that is still to be scanned will hide it. */
  ghost predicate Open(c: Config, p: Program) {
    && !p.pc.Halted?
    && (p.pc.Clearing? && p.second ==> p.status != ClusterFail)
    && (p.pc.Scanning? ==> Succeeds(p) || (!p.second && NoFollows(c, p, p.pc.k)))
    && (p.pc.Zeroing? || p.pc.Resuming? ==> Succeeds(p))
  }

  predicate BeforeScanning(pc: MainPc) {
    pc.Clearing? || pc.Stamping? || InSending(pc) || pc.Polling? || pc.Pausing?
  }

  /** From anywhere before the scan to the end of the phase. */
  lemma EndPhase(c: Config, r0: RSys, rs: RSys) returns (rt: RSys)
    requires At(c, r0, rs) && Live(c, rs) && NoRaceOver(c, rs) && Open(c, rs.p) && BeforeScanning(rs.p.pc)
    ensures Quiet(c, r0, rt, Base(rt.p) + 1, !rt.p.second) && rt.p.pc == Resuming && Succeeds(rt.p)
    ensures rt.p.round == rs.p.round && rt.p.second == rs.p.second
  {
    rt := rs;
    if InSending(rs.p.pc) {
      rt := ToSending(c, r0, rs);
    }
    NoPause(c, r0, rt);
    rt := WorkersReady(c, r0, rt);
    rt := EverythingSent(c, r0, rt);
    rt := FinishPhase(c, r0, rt);
  }

  lemma NoPause(c: Config, r0: RSys, rs: RSys)
    requires At(c, r0, rs) && BeforeScanning(rs.p.pc)
    ensures !rs.p.pause
  {
    Facts(c, r0, rs);
  }

  predicate AllSent(c: Config, p: Program) {
    p.pc.Polling? || p.pc.Pausing? || (p.pc.Sending? && AllDone(c, p.pc.done))
  }

  lemma EverythingSent(c: Config, r0: RSys, rs: RSys) returns (rt: RSys)
    requires At(c, r0, rs) && Live(c, rs) && NoRaceOver(c, rs) && Open(c, rs.p) && AllPass(rs.p)
    requires BeforeScanning(rs.p.pc) && !rs.p.pc.Writing? && !rs.p.pc.Checking?
    ensures Open(c, rt.p) && (AllSent(c, rt.p) || rt.p.pc.Clearing? || rt.p.pc.Stamping?)
    ensures if AllSent(c, rt.p) then Quiet(c, r0, rt, Base(rt.p) + 1, !rt.p.second) else Quiet(c, r0, rt, Base(rt.p), rt.p.second)
    ensures rt.p.round == rs.p.round && rt.p.second == rs.p.second
  {
    rt := rs;
    if rt.p.pc.Sending? {
      rt := DriveAll(c, r0, rt, 0);
    }
    QuietPhase(c, r0, rt);
  }

  lemma QuietPhase(c: Config, r0: RSys, rs: RSys)
    requires At(c, r0, rs) && Live(c, rs) && AllPass(rs.p) && (AllSent(c, rs.p) || rs.p.pc.Clearing? || rs.p.pc.Stamping?)
    ensures if AllSent(c, rs.p) then Quiet(c, r0, rs, Base(rs.p) + 1, !rs.p.second) else Quiet(c, r0, rs, Base(rs.p), rs.p.second)
  {
    PhaseParity(rs.p);
    if AllSent(c, rs.p) {
      QuietHere(c, r0, rs);
    } else {
      QuietHere(c, r0, rs);
    }
  }

  lemma FinishPhase(c: Config, r0: RSys, rs: RSys) returns (rt: RSys)
    requires Open(c, rs.p) && (AllSent(c, rs.p) || rs.p.pc.Clearing? || rs.p.pc.Stamping?)
    requires if AllSent(c, rs.p) then Quiet(c, r0, rs, Base(rs.p) + 1, !rs.p.second) else Quiet(c, r0, rs, Base(rs.p), rs.p.second)
    ensures Quiet(c, r0, rt, Base(rt.p) + 1, !rt.p.second) && rt.p.pc == Resuming && Succeeds(rt.p)
    ensures rt.p.round == rs.p.round && rt.p.second == rs.p.second
  {
    Facts(c, r0, rs);
    assert Flags(c, rs.p);
    if rs.p.pc.Clearing? {
      rt := Phase(c, r0, rs);
    } else if rs.p.pc.Stamping? {
      rt := FromStamping(c, r0, rs);
    } else {
      rt := ToScanning(c, r0, rs);
      rt := FromScanning(c, r0, rt);
    }
  }

  lemma ToScanning(c: Config, r0: RSys, rs: RSys) returns (rt: RSys)
    requires Answered(c, r0, rs) && AllSent(c, rs.p)
    ensures Quiet(c, r0, rt, Base(rt.p) + 1, !rt.p.second) && rt.p.pc == Scanning(0) && Succeeds(rt.p)
    ensures rt.p.round == rs.p.round && rt.p.second == rs.p.second
  {
    if rs.p.pc.Sending? {
      rt := PausingAll(c, r0, rs);
    } else if rs.p.pc.Polling? {
      rt := FromPolling(c, r0, rs);
    } else {
      rt := ToScan(c, r0, rs);
    }
  }

  /** In the middle of a scan: every answer of the phase is taken, and posted. */
  ghost predicate AllPosted(c: Config, r0: RSys, rs: RSys) {
    && At(c, r0, rs) && Live(c, rs) && (forall t :: 0 <= t < c.workers ==> !rs.p.workers[t].Got?)
    && forall j :: 0 <= j < c.n ==> |rs.links[j].gotS| == Base(rs.p) + 2
  }

  lemma EntryIsPosted(c: Config, r0: RSys, rs: RSys, k: nat) returns (j: nat)
    requires AllPosted(c, r0, rs) && rs.p.pc == Scanning(k) && k < c.n
    ensures j < c.n && c.ids[j] - 1 == k && rs.p.board[k] == if rs.p.second then Ack else VoteKind(c, j, rs.p.round)
  {
    Facts(c, r0, rs);
    j := PostedEntry(c, rs, k);
  }

  lemma PostedEntry(c: Config, rs: RSys, k: nat) returns (j: nat)
    requires RInv(c, rs) && rs.p.pc == Scanning(k) && k < c.n && !rs.p.stop
    requires forall t :: 0 <= t < c.workers ==> !rs.p.workers[t].Got?
    requires forall j :: 0 <= j < c.n ==> |rs.links[j].gotS| == Base(rs.p) + 2
    ensures j < c.n && c.ids[j] - 1 == k && rs.p.board[k] == if rs.p.second then Ack else VoteKind(c, j, rs.p.round)
  {
    j := OwnerOfEntry(c, k);
    assert ConnInv(c, rs.p, Abstract(rs).ch[j], j);
  }

  lemma {:induction false} ScanningOn(c: Config, r0: RSys, rs: RSys, k: nat) returns (rt: RSys)
    requires AllPosted(c, r0, rs) && rs.p.pc == Scanning(k) && k <= c.n && Open(c, rs.p)
    ensures At(c, r0, rt) && Live(c, rt) && rt.p.pc == Zeroing(0) && Succeeds(rt.p)
    ensures rt.p.round == rs.p.round && rt.p.second == rs.p.second
    decreases c.n - k
  {
    if k < c.n {
      var j := EntryIsPosted(c, r0, rs, k);
      StaysOpen(c, rs.p, j, k);
      rt := Lively(c, r0, rs, Scan);
      rt := ScanningOn(c, r0, rt, k + 1);
    } else {
      rt := Lively(c, r0, rs, Scan);
    }
  }

  lemma StaysOpen(c: Config, p: Program, j: nat, k: nat)
    requires ValidConfig(c) && Shaped(c, p) && p.pc == Scanning(k) && !p.stop && j < c.n && c.ids[j] - 1 == k && Open(c, p)
    requires p.board[k] == if p.second then Ack else VoteKind(c, j, p.round)
    ensures var q := ScanStep(c, p); !q.stop && q.pc == Scanning(k + 1) && Open(c, q) && q.round == p.round && q.second == p.second
  {
    var q := ScanStep(c, p);
    if !p.second && p.status == ClusterFail && c.vote(j, p.round) {
      var i :| 0 <= i < c.n && c.ids[i] - 1 >= k && !c.vote(i, p.round);
      assert i != j;
      assert c.ids[i] - 1 >= k + 1 && NoFollows(c, q, k + 1);
    }
  }

  lemma FromScan(c: Config, r0: RSys, rs: RSys) returns (rt: RSys)
    requires At(c, r0, rs) && Live(c, rs) && rs.p.pc.Scanning? && Open(c, rs.p)
    ensures At(c, r0, rt) && Live(c, rt) && rt.p.pc == Zeroing(0) && Succeeds(rt.p)
    ensures rt.p.round == rs.p.round && rt.p.second == rs.p.second
  {
    Facts(c, r0, rs);
    rt := NoneHolds(c, r0, rs, c.workers);
    forall j | 0 <= j < c.n ensures |rt.links[j].gotS| == Base(rt.p) + 2 {
      Facts(c, r0, rt);
      assert Couple(c, rt.p, rt.links[j], j) && ConnInv(c, rt.p, Abstract(rt).ch[j], j);
    }
    rt := ScanningOn(c, r0, rt, rt.p.pc.k);
  }

  /** After the scan nothing but main's own steps is needed to end the phase. */
  lemma {:induction false} FromZeroing(c: Config, r0: RSys, rs: RSys) returns (rt: RSys)
    requires At(c, r0, rs) && Live(c, rs) && rs.p.pc.Zeroing? && Succeeds(rs.p)
    ensures At(c, r0, rt) && Live(c, rt) && rt.p.pc == Resuming && Succeeds(rt.p)
    ensures rt.p.round == rs.p.round && rt.p.second == rs.p.second
    decreases if rs.p.pc.t <= c.workers then c.workers - rs.p.pc.t else 0
  {
    var t := rs.p.pc.t;
    rt := Lively(c, r0, rs, Zero);
    if t < c.workers {
      rt := FromZeroing(c, r0, rt);
    }
  }

  /** From the end of a phase to the next top of the round loop. */
  lemma FromResuming(c: Config, r0: RSys, rs: RSys) returns (rt: RSys)
    requires At(c, r0, rs) && Live(c, rs) && rs.p.pc == Resuming && Succeeds(rs.p)
    ensures At(c, r0, rt) && rt.p.pc == RoundTop && !rt.p.stop && rt.p.round == rs.p.round + 1
  {
    rt := Lively(c, r0, rs, Resume);
    if !rs.p.second {
      NoRaceNow(c, r0, rt);
      rt := EndPhase(c, r0, rt);
      rt := Quietly(c, r0, rt, Resume);
    }
  }

  lemma NoRaceNow(c: Config, r0: RSys, rs: RSys)
    requires At(c, r0, rs) && !rs.p.stop && !InSending(rs.p.pc)
    ensures NoRaceOver(c, rs)
  {
    Facts(c, r0, rs);
    NoRaceWhereIdle(c, rs);
  }

  lemma NoRaceWhereIdle(c: Config, rs: RSys)
    requires RInv(c, rs) && !rs.p.stop && Calm(rs.p) && !InSending(rs.p.pc)
    ensures NoRaceOver(c, rs)
  {
    forall j | 0 <= j < c.n ensures !RaceOver(rs.links[j]) {
      assert Couple(c, rs.p, rs.links[j], j);
    }
  }

  /** From anywhere within a round to the next top of the round loop. */
  lemma ToNextTop(c: Config, r0: RSys, rs: RSys) returns (rt: RSys)
    requires At(c, r0, rs) && Live(c, rs) && NoRaceOver(c, rs) && Open(c, rs.p) && !rs.p.pc.Connecting?
    ensures At(c, r0, rt) && rt.p.pc == RoundTop && !rt.p.stop && rt.p.round == rs.p.round + 1
  {
    rt := rs;
    if rs.p.pc.RoundTop? {
      rt := Lively(c, r0, rs, NextRound);
      NoRaceNow(c, r0, rt);
    }
    if BeforeScanning(rt.p.pc) {
      rt := EndPhase(c, r0, rt);
    } else {
      if rt.p.pc.Scanning? {
        rt := FromScan(c, r0, rt);
      }
      if rt.p.pc.Zeroing? {
        rt := FromZeroing(c, r0, rt);
      }
    }
    rt := FromResuming(c, r0, rt);
  }

  // ---------------------------------------------------------------- connecting

  /** Connection j's hello is counted, if it was not before. */
  lemma Greet(c: Config, r0: RSys, rs: RSys, j: nat) returns (rt: RSys)
    requires At(c, r0, rs) && Live(c, rs) && rs.p.pc.Connecting? && j < c.n && |rs.links[j].gotS| == 0
    ensures At(c, r0, rt) && Live(c, rt) && rt.p.pc.Connecting? && |rt.links[j].gotS| > 0 && rt.p.round == rs.p.round
    ensures forall i :: 0 <= i < c.n && i != j ==> rt.links[i] == rs.links[i]
  {
    rt := rs;
    if rs.p.clients[j].pc == Fresh {
      rt := Calls(c, r0, rs, j, Peer(j, Hello), BLANK, Payload(Msg(Con, c.ids[j]), 0, 0, 0));
    }
    rt := TakeHello(c, r0, rt, j);
  }

  lemma TakeHello(c: Config, r0: RSys, rs: RSys, j: nat) returns (rt: RSys)
    requires At(c, r0, rs) && Live(c, rs) && rs.p.pc.Connecting? && j < c.n && |rs.links[j].gotS| == 0
    requires rs.p.clients[j].pc != Fresh
    ensures At(c, r0, rt) && Live(c, rt) && rt.p.pc.Connecting? && |rt.links[j].gotS| > 0 && rt.p.round == rs.p.round
    ensures forall i :: 0 <= i < c.n && i != j ==> rt.links[i] == rs.links[i]
  {
    Facts(c, r0, rs);
    HelloIsOut(c, rs, j);
    rt := Go(c, r0, rs, Inside(j, ClientRetry));
    rt := CountHello(c, r0, rt, j);
  }

  lemma HelloIsCon(c: Config, rs: RSys, j: nat)
    requires RInv(c, rs) && rs.p.pc.Connecting? && j < c.n && |rs.links[j].gotS| == 0
    requires rs.p.clients[j].pc != Fresh && rs.p.clients[j].pc != Dead && rs.links[j].c.outBuf in rs.links[j].toS
    ensures rs.links[j].c.outBuf.msg.core.kind == Con
  {
    HelloIsOut(c, rs, j);
    assert Couple(c, rs.p, rs.links[j], j) && ConnInv(c, rs.p, Abstract(rs).ch[j], j);
    assert Genuine(rs.links[j].c.outBuf, rs.links[j].sentC) && Abstract(rs).ch[j].up[0] == UpMsg(c, j, 0);
  }

  lemma CountHello(c: Config, r0: RSys, rs: RSys, j: nat) returns (rt: RSys)
    requires At(c, r0, rs) && Live(c, rs) && rs.p.pc.Connecting? && j < c.n && |rs.links[j].gotS| == 0
    requires rs.p.clients[j].pc != Fresh && rs.links[j].c.outBuf in rs.links[j].toS
    ensures At(c, r0, rt) && Live(c, rt) && rt.p.pc.Connecting? && |rt.links[j].gotS| > 0 && rt.p.round == rs.p.round
    ensures forall i :: 0 <= i < c.n && i != j ==> rt.links[i] == rs.links[i]
  {
    Facts(c, r0, rs);
    HelloIsOut(c, rs, j);
    HelloIsCon(c, rs, j);
    HelloIsTaken(rs.links[j], rs.links[j].c.outBuf);
    rt := Calls(c, r0, rs, j, Main(Connect(j)), rs.links[j].c.outBuf, BLANK.msg);
  }

  lemma HelloIsTaken(l: Link, p: Packet)
    requires l.s.slot.None? && !l.s.isServer && l.s.seqNo < p.num
    ensures BegRead(l.s, Datagram(p)).code == ENone && |OnLink(l, Drain(0), p, BLANK.msg).gotS| == |l.gotS| + 1
  {
  }

  lemma HelloIsOut(c: Config, rs: RSys, j: nat)
    requires RInv(c, rs) && rs.p.pc.Connecting? && j < c.n && |rs.links[j].gotS| == 0
    requires rs.p.clients[j].pc != Fresh && rs.p.clients[j].pc != Dead
    ensures var l := rs.links[j];
            && rs.p.clients[j].pc in {HelloSent, AckSent} && l.c.outstanding && l.c.outBuf.num == 0
            && l.s.seqNo == -1 && l.s.slot.None? && !l.s.isServer
  {
    assert Couple(c, rs.p, rs.links[j], j) && ConnInv(c, rs.p, Abstract(rs).ch[j], j);
    assert WorkerInv(c, Abstract(rs), c.owner[j]);
  }

  lemma {:induction false} GreetAll(c: Config, r0: RSys, rs: RSys, k: nat) returns (rt: RSys)
    requires At(c, r0, rs) && Live(c, rs) && rs.p.pc.Connecting? && k <= c.n
    requires forall j :: 0 <= j < k ==> |rs.links[j].gotS| > 0
    ensures At(c, r0, rt) && Live(c, rt) && rt.p.pc.Connecting? && rt.p.round == rs.p.round
    ensures forall j :: 0 <= j < c.n ==> |rt.links[j].gotS| > 0
    decreases c.n - k
  {
    rt := rs;
    if k < c.n {
      if |rs.links[k].gotS| == 0 {
        rt := Greet(c, r0, rs, k);
      }
      rt := GreetAll(c, r0, rt, k + 1);
    }
  }

  lemma ToFirstTop(c: Config, r0: RSys, rs: RSys) returns (rt: RSys)
    requires At(c, r0, rs) && Live(c, rs) && rs.p.pc.Connecting?
    ensures At(c, r0, rt) && Live(c, rt) && rt.p.pc == RoundTop && rt.p.round == rs.p.round
  {
    rt := GreetAll(c, r0, rs, 0);
    FullRange(c.n, Greeted(c, Abstract(rt)));
    Facts(c, r0, rt);
    rt := Lively(c, r0, rt, Connected);
  }

  // ---------------------------------------------------- what stops it for good

  lemma RaceStays(c: Config, rs: RSys, ra: RAct, j: nat)
    requires RInv(c, rs) && RCan(c, rs, ra) && j < c.n && RaceOver(rs.links[j])
    ensures RaceOver(RApply(c, rs, ra).links[j])
  {
    assert Couple(c, rs.p, rs.links[j], j);
    if ra.Prog? {
      CallersKeepContract(c, rs, ra.a, ra.p, ra.m);
    }
  }

  /** A vote that main scans as no is its client's. */
  lemma NoIsVoted(c: Config, rs: RSys, k: nat) returns (j: nat)
    requires RInv(c, rs) && rs.p.pc == Scanning(k) && k < c.n && !rs.p.second && !rs.p.stop
    ensures j < c.n && c.ids[j] - 1 == k && (rs.p.board[k] == VoteNo ==> !c.vote(j, rs.p.round))
  {
    j := OwnerOfEntry(c, k);
    assert ConnInv(c, rs.p, Abstract(rs).ch[j], j);
  }

  lemma MainStaysClosed(c: Config, p: Program, a: MainAct, m: Msg)
    requires Shaped(c, p) && CanMain(c, p, a) && Calm(p) && !p.stop && !Open(c, p)
    requires p.pc.Scanning? && p.pc.k < c.n && !p.second ==> (p.board[p.pc.k] == VoteNo ==> NoFollows(c, p, p.pc.k))
    ensures var q := MainNext(c, p, a, m); q.stop || !Open(c, q)
  {
    var q := MainNext(c, p, a, m);
    if p.pc.Scanning? && q.pc.Scanning? && NoFollows(c, q, q.pc.k) {
      FollowsEarlier(c, p, q, p.pc.k, q.pc.k);
    }
  }

  lemma FollowsEarlier(c: Config, p: Program, q: Program, k: nat, l: nat)
    requires q.round == p.round && k <= l && NoFollows(c, q, l)
    ensures NoFollows(c, p, k)
  {
    var j :| 0 <= j < c.n && j < |c.ids| && c.ids[j] - 1 >= l && !c.vote(j, q.round);
    assert c.ids[j] - 1 >= k;
  }

  lemma StaysClosed(c: Config, rs: RSys, ra: RAct)
    requires RInv(c, rs) && Calm(rs.p) && !rs.p.stop && !Open(c, rs.p) && RCan(c, rs, ra)
    ensures var q := RApply(c, rs, ra).p; q.stop || !Open(c, q)
  {
    if ra.Prog? && ra.a.Main? {
      if rs.p.pc.Scanning? && rs.p.pc.k < c.n && !rs.p.second {
        var j := NoIsVoted(c, rs, rs.p.pc.k);
      }
      var t := Effect(c, rs.p, ra.a);
      MainStaysClosed(c, rs.p, ra.a.ma, if t == Tau then Msg(Lost, SERVER_ID) else Handed(rs.links[t.j], t, ra.p));
    }
  }

  /** Stopped, or bound not to finish the round. */
  ghost predicate Hopeless(c: Config, rs: RSys) {
    RShaped(c, rs) && (rs.p.stop || !Open(c, rs.p) || !NoRaceOver(c, rs))
  }

  lemma HopelessStep(c: Config, rs: RSys, ra: RAct)
    requires RInv(c, rs) && Calm(rs.p) && Hopeless(c, rs) && RCan(c, rs, ra)
    ensures Hopeless(c, RApply(c, rs, ra))
  {
    if rs.p.stop {
      StoppedStays(c, rs, ra);
    } else if !Open(c, rs.p) {
      StaysClosed(c, rs, ra);
    } else {
      var j :| 0 <= j < c.n && RaceOver(rs.links[j]);
      RaceStays(c, rs, ra, j);
    }
  }

  lemma StoppedStays(c: Config, rs: RSys, ra: RAct)
    requires RShaped(c, rs) && rs.p.stop && RCan(c, rs, ra)
    ensures RApply(c, rs, ra).p.stop
  {
    if ra.Prog? {
      var t := Effect(c, rs.p, ra.a);
      StopIsMonotone(c, rs.p, ra.a, if t == Tau then Msg(Lost, SERVER_ID) else Handed(rs.links[t.j], t, ra.p));
    }
  }

  /** There is no way back. */
  lemma {:induction false} HopelessStays(c: Config, rs: RSys, more: seq<RAct>)
    requires RInv(c, rs) && Calm(rs.p) && Hopeless(c, rs) && RFrom(c, rs, more).Some?
    ensures var rt := RFrom(c, rs, more).value; RInv(c, rt) && Calm(rt.p) && Hopeless(c, rt)
    decreases |more|
  {
    if more != [] {
      var front, ra := more[..|more| - 1], more[|more| - 1];
      HopelessStays(c, rs, front);
      var r1 := RFrom(c, rs, front).value;
      HopelessStep(c, r1, ra);
      RStepKeeps(c, r1, ra);
      StaysCalm(c, r1, ra);
    }
  }

  // -------------------------------------------------------------- the theorems

  /** After `more` further steps main is at the top of its round loop, one round later (or for
      the first time), with stop_signal not raised, and unless a wait has timed out already none
      has had to time out for that. */
  ghost predicate GetsToNextTop(c: Config, acts: seq<RAct>, more: seq<RAct>)
    requires RRun(c, acts).Some?
  {
    && RRun(c, acts + more).Some?
    && var p, q := RRun(c, acts).value.p, RRun(c, acts + more).value.p;
       && q.pc == RoundTop && !q.stop && (q.timedOut ==> p.timedOut)
       && q.round == if p.pc.Connecting? then p.round else p.round + 1
  }

  lemma ReachableIsAt(c: Config, acts: seq<RAct>)
    requires ValidConfig(c) && RRun(c, acts).Some?
    ensures At(c, RRun(c, acts).value, RRun(c, acts).value)
  {
    var rs := RRun(c, acts).value;
    assert RFrom(c, rs, []) == Some(rs);
    assert Leads(c, acts, rs, [], rs);
  }

  lemma StepsTo(c: Config, r0: RSys, rt: RSys) returns (more: seq<RAct>)
    requires At(c, r0, rt)
    ensures RFrom(c, r0, more) == Some(rt)
  {
    var before, acts :| Leads(c, before, r0, acts, rt);
    more := acts;
  }

  /** PROGRESS OF THE WHOLE PROGRAM. From a state of any run over reliable UDP in which
      stop_signal is not raised and no client has died, the program can get to the next top of
      its round loop if and only if no write has lost its race (or is bound to) and main has not
      failed the cluster in the scan it is in or has just made. In particular no deadlock is
      reachable but by the race. */
  lemma NextTopIff(c: Config, acts: seq<RAct>)
    requires ValidConfig(c) && RRun(c, acts).Some? && Live(c, RRun(c, acts).value)
    ensures var rs := RRun(c, acts).value;
            (exists more :: GetsToNextTop(c, acts, more)) <==> NoRaceOver(c, rs) && Open(c, rs.p)
  {
    if NoRaceOver(c, RRun(c, acts).value) && Open(c, RRun(c, acts).value.p) {
      var more := NextTopReachable(c, acts);
    }
    if more :| GetsToNextTop(c, acts, more) {
      NextTopNeeds(c, acts, more);
    }
  }

  lemma NextTopReachable(c: Config, acts: seq<RAct>) returns (more: seq<RAct>)
    requires ValidConfig(c) && RRun(c, acts).Some? && Live(c, RRun(c, acts).value)
    requires NoRaceOver(c, RRun(c, acts).value) && Open(c, RRun(c, acts).value.p)
    ensures GetsToNextTop(c, acts, more)
  {
    var rs := RRun(c, acts).value;
    ReachableIsAt(c, acts);
    var rt;
    if rs.p.pc.Connecting? {
      rt := ToFirstTop(c, rs, rs);
    } else {
      rt := ToNextTop(c, rs, rs);
    }
    more := StepsTo(c, rs, rt);
    RunGoesOn(c, acts, more);
  }

  lemma NextTopNeeds(c: Config, acts: seq<RAct>, more: seq<RAct>)
    requires ValidConfig(c) && RRun(c, acts).Some? && GetsToNextTop(c, acts, more)
    ensures NoRaceOver(c, RRun(c, acts).value) && Open(c, RRun(c, acts).value.p)
  {
    var rs := RRun(c, acts).value;
    ReachableIsAt(c, acts);
    RunGoesOn(c, acts, more);
    Facts(c, rs, rs);
    if Hopeless(c, rs) {
      HopelessStays(c, rs, more);
      NoRaceWhereIdle(c, RFrom(c, rs, more).value);
    }
  }

  lemma ToBoundary(c: Config, r0: RSys, rs: RSys) returns (rt: RSys)
    requires At(c, r0, rs) && Live(c, rs) && rs.p.pc == RoundTop
    ensures Boundary(c, r0, rt) && rt.p.round == rs.p.round
  {
    Facts(c, r0, rs);
    rt := WorkersReady(c, r0, rs);
    QuietAtTop(c, r0, rt);
  }

  lemma QuietAtTop(c: Config, r0: RSys, rs: RSys)
    requires At(c, r0, rs) && Live(c, rs) && AllPass(rs.p) && rs.p.pc == RoundTop
    ensures Boundary(c, r0, rs)
  {
    Facts(c, r0, rs);
    assert Flags(c, rs.p);
    PhaseParity(rs.p);
    QuietHere(c, r0, rs);
  }

  /** EVERY ROUND IS REACHABLE. For every configuration there are runs that finish any number of
      rounds without any timeout. */
  lemma {:induction false} RoundsReachable(c: Config, k: nat) returns (acts: seq<RAct>)
    requires ValidConfig(c)
    ensures RRun(c, acts).Some?
    ensures var p := RRun(c, acts).value.p; p.pc == RoundTop && !p.stop && !p.timedOut && p.round == k
  {
    var r0 := InitRSys(c);
    assert RRun(c, []) == Some(r0);
    ReachableIsAt(c, []);
    var s1 := ToFirstTop(c, r0, r0);
    var s2 := ToBoundary(c, r0, s1);
    var rt := Rounds(c, r0, s2, k);
    acts := StepsTo(c, r0, rt);
    RunGoesOn(c, [], acts);
    assert [] + acts == acts;
  }
}
