/** One exchange on one connection over reliable UDP: main's message, the client's answer, the
    worker that counts it and the acknowledgement; and how one that is under way is finished. */
module RudpExchange {
  import opened Messages
  import opened Channel
  import opened TwoPhase
  import opened FifoSystem
  import opened CommitInvariant
  import opened CommitTheorems
  import opened Transport
  import opened RudpEndpoint
  import opened RudpLink
  import opened RudpSystem
  import opened RudpRuns

  // -------------------------------------------- one exchange on one connection

  /** Everything sent on the link so far has been taken, `base` messages down and one more up. */
  predicate Even(l: Link, base: nat) {
    && |l.gotC| == |l.sentS| == base && |l.sentC| == |l.gotS| == base + 1
    && l.c.slot.None? && l.s.slot.None?
  }

  /** The client of a phase's beginning: it waits for the next message, or for its own last one
      to be acknowledged. */
  predicate Waits(pc: ClientPc, second: bool) {
    if second then pc == VoteSent || pc == WaitDecision else pc == HelloSent || pc == AckSent || pc == WaitRequest
  }

  predicate AllPass(p: Program) {
    forall t :: 0 <= t < |p.workers| ==> p.workers[t] == Pass
  }

  /** Main writes its message to connection j. */
  lemma Putting(c: Config, r0: RSys, rs: RSys, j: nat, put: set<nat>, done: set<nat>) returns (rt: RSys)
    requires At(c, r0, rs) && rs.p.pc == Sending(put, done) && !rs.p.stop && j < c.n && j !in put && j !in done
    ensures At(c, r0, rt) && rt.p == rs.p.(pc := Checking(j, put + {j}, done))
    ensures rt.links == rs.links[j := LinkStep(rs.links[j], ServerSend)]
  {
    var s1 := Quietly(c, r0, rs, Pick(j));
    rt := WritingIt(c, r0, s1, j, put, done);
  }

  lemma WritingIt(c: Config, r0: RSys, rs: RSys, j: nat, put: set<nat>, done: set<nat>) returns (rt: RSys)
    requires At(c, r0, rs) && rs.p.pc == Writing(j, put, done) && j < c.n && j !in put
    ensures At(c, r0, rt) && rt.p == rs.p.(pc := Checking(j, put + {j}, done))
    ensures rt.links == rs.links[j := LinkStep(rs.links[j], ServerSend)]
  {
    rt := Calls(c, r0, rs, j, Main(EndWrite), BLANK, BLANK.msg);
  }

  /** Where connection j is while its client has not yet taken what main wrote. */
  ghost predicate Written(c: Config, rs: RSys, j: nat, put: set<nat>, done: set<nat>, base: nat) {
    && RShaped(c, rs) && j < c.n && j !in done && rs.p.pc == Checking(j, put + {j}, done) && !rs.p.stop
    && base == Base(rs.p) && Waits(rs.p.clients[j].pc, rs.p.second) && AllPass(rs.p)
    && var l := rs.links[j];
       && l.stage == Waiting && l.s.currentSeq == l.s.seqNo == l.c.seqNo == base
       && l.s.outBuf.num == base && l.s.outBuf in l.toC
       && |l.gotC| == base && |l.sentS| == |l.sentC| == |l.gotS| == base + 1 && l.c.slot.None? && l.s.slot.None?
  }

  /** A connection that is even before its phase's message is written. */
  lemma EvenFacts(c: Config, r0: RSys, rs: RSys, j: nat, put: set<nat>, done: set<nat>)
    requires At(c, r0, rs) && rs.p.pc == Sending(put, done) && !rs.p.stop && j < c.n && j !in put && j !in done && Even(rs.links[j], Base(rs.p))
    ensures var l, base := rs.links[j], Base(rs.p);
            && l.stage == Stamped && l.s.seqNo == l.c.seqNo == base && l.s.outBuf.num == base
            && l.s.outBuf.msg.core == Outgoing(rs.p) && |l.sentS| == base
  {
    Facts(c, r0, rs);
    assert Couple(c, rs.p, rs.links[j], j);
  }

  lemma Recording(c: Config, r0: RSys, rs: RSys, j: nat, put: set<nat>, done: set<nat>) returns (rt: RSys)
    requires At(c, r0, rs) && rs.p.pc == Sending(put, done) && !rs.p.stop && j < c.n && j !in put && j !in done
    requires Even(rs.links[j], Base(rs.p)) && Waits(rs.p.clients[j].pc, rs.p.second) && AllPass(rs.p)
    ensures At(c, r0, rt) && Written(c, rt, j, put, done, Base(rs.p))
    ensures rt.p == rs.p.(pc := Checking(j, put + {j}, done)) && forall i :: 0 <= i < c.n && i != j ==> rt.links[i] == rs.links[i]
  {
    EvenFacts(c, r0, rs, j, put, done);
    rt := PuttingAndRecording(c, r0, rs, j, put, done);
    RecordedIsWritten(c, rs, rt, j, put, done);
  }

  lemma PuttingAndRecording(c: Config, r0: RSys, rs: RSys, j: nat, put: set<nat>, done: set<nat>) returns (rt: RSys)
    requires At(c, r0, rs) && rs.p.pc == Sending(put, done) && !rs.p.stop && j < c.n && j !in put && j !in done
    ensures At(c, r0, rt) && RShaped(c, rt) && rt.p == rs.p.(pc := Checking(j, put + {j}, done))
    ensures rt.links[j] == LinkStep(LinkStep(rs.links[j], ServerSend), ServerRecord)
    ensures forall i :: 0 <= i < c.n && i != j ==> rt.links[i] == rs.links[i]
  {
    rt := Putting(c, r0, rs, j, put, done);
    rt := RecordingSent(c, r0, rt, j, rs.links[j]);
  }

  lemma RecordingSent(c: Config, r0: RSys, rs: RSys, j: nat, l: Link) returns (rt: RSys)
    requires At(c, r0, rs) && j < c.n && rs.links[j] == LinkStep(l, ServerSend)
    ensures At(c, r0, rt) && rt.p == rs.p && rt.links == rs.links[j := LinkStep(rs.links[j], ServerRecord)]
  {
    rt := RecordingIt(c, r0, rs, j);
  }

  lemma RecordingIt(c: Config, r0: RSys, rs: RSys, j: nat) returns (rt: RSys)
    requires At(c, r0, rs) && j < c.n && rs.links[j].stage == Sent
    ensures At(c, r0, rt) && rt.p == rs.p && rt.links == rs.links[j := LinkStep(rs.links[j], ServerRecord)]
  {
    rt := Go(c, r0, rs, Inside(j, ServerRecord));
  }

  lemma RecordedIsWritten(c: Config, rs: RSys, rt: RSys, j: nat, put: set<nat>, done: set<nat>)
    requires RShaped(c, rs) && RShaped(c, rt) && j < c.n && j !in done && !rs.p.stop && AllPass(rs.p)
    requires Even(rs.links[j], Base(rs.p)) && Waits(rs.p.clients[j].pc, rs.p.second)
    requires var l, base := rs.links[j], Base(rs.p); l.s.seqNo == l.c.seqNo == l.s.outBuf.num == base
    requires rt.p == rs.p.(pc := Checking(j, put + {j}, done))
    requires rt.links[j] == LinkStep(LinkStep(rs.links[j], ServerSend), ServerRecord)
    ensures Written(c, rt, j, put, done, Base(rs.p))
  {
  }

  /** What a step on connection j leaves alone. */
  predicate Elsewhere(c: Config, rs: RSys, rt: RSys, j: nat)
    requires RShaped(c, rs) && RShaped(c, rt)
  {
    && rt.p.round == rs.p.round && rt.p.second == rs.p.second && rt.p.stop == rs.p.stop && rt.p.status == rs.p.status
    && forall i :: 0 <= i < c.n && i != j ==> rt.links[i] == rs.links[i] && rt.p.clients[i] == rs.p.clients[i]
  }

  /** The datagram reaches the client. */
  lemma Delivering(c: Config, r0: RSys, rs: RSys, j: nat, put: set<nat>, done: set<nat>, base: nat) returns (rt: RSys)
    requires At(c, r0, rs) && Written(c, rs, j, put, done, base)
    ensures At(c, r0, rt) && rt.p == rs.p
    ensures rt.links == rs.links[j := LinkStep(rs.links[j], ClientRead(rs.links[j].s.outBuf))]
    ensures rt.links[j].c.slot == Some(rs.links[j].s.outBuf) && rt.links[j].c.seqNo == base + 1
  {
    Facts(c, r0, rs);
    assert Couple(c, rs.p, rs.links[j], j);
    rt := Go(c, r0, rs, Inside(j, ClientRead(rs.links[j].s.outBuf)));
  }

  /** Connection j in the middle of its exchange: how many messages were transmitted upwards and
      how many of them accepted; the message downwards has been accepted. */
  ghost predicate Midway(c: Config, rs: RSys, j: nat, put: set<nat>, done: set<nat>, base: nat, up: nat, upGot: nat) {
    && RShaped(c, rs) && j < c.n && j !in done && rs.p.pc == Checking(j, put + {j}, done) && !rs.p.stop && base == Base(rs.p)
    && var l := rs.links[j];
       && l.stage == Waiting && l.s.currentSeq == base && l.c.seqNo == base + 1
       && |l.gotC| == |l.sentS| == base + 1 && |l.sentC| == up && |l.gotS| == upGot
  }

  lemma Confirming(c: Config, r0: RSys, rs: RSys, j: nat, put: set<nat>, done: set<nat>, base: nat) returns (rt: RSys)
    requires At(c, r0, rs) && Midway(c, rs, j, put, done, base, base + 1, base + 1)
    requires rs.links[j].c.slot.Some? && Waits(rs.p.clients[j].pc, rs.p.second)
    ensures At(c, r0, rt) && Midway(c, rt, j, put, done, base, base + 1, base + 1) && Elsewhere(c, rs, rt, j)
    ensures rt.p == rs.p.(clients := rt.p.clients) && rt.links[j].c.slot == rs.links[j].c.slot
    ensures rt.links[j].s == rs.links[j].s
    ensures rt.p.clients[j].pc == if rs.p.second then WaitDecision else WaitRequest
  {
    Facts(c, r0, rs);
    assert Couple(c, rs.p, rs.links[j], j);
    if rs.p.clients[j].pc == WaitRequest || rs.p.clients[j].pc == WaitDecision {
      rt := rs;
    } else {
      rt := Calls(c, r0, rs, j, Peer(j, Confirm), BLANK, BLANK.msg);
    }
  }

  /** The message in the client's read slot is of the type that it waits for. */
  lemma SlotIsExpected(c: Config, r0: RSys, rs: RSys, j: nat)
    requires At(c, r0, rs) && j < c.n && rs.links[j].c.slot.Some?
    requires rs.p.clients[j].pc == WaitRequest || rs.p.clients[j].pc == WaitDecision
    ensures var k := rs.links[j].c.slot.value.msg.core.kind;
            if rs.p.clients[j].pc == WaitRequest then k == Request else k == Commit || k == Cancel
  {
    Facts(c, r0, rs);
    ProgramStepRefines(c, rs, Peer(j, Receive), BLANK, BLANK.msg);
    CallersKeepContract(c, rs, Peer(j, Receive), BLANK, BLANK.msg);
    assert Couple(c, rs.p, rs.links[j], j);
    CallIsLabel(rs.links[j], ClientTake(j), BLANK, BLANK.msg);
    ExpectedKind(c, Abstract(rs), j);
  }

  lemma Receiving(c: Config, r0: RSys, rs: RSys, j: nat, put: set<nat>, done: set<nat>, base: nat) returns (rt: RSys)
    requires At(c, r0, rs) && Midway(c, rs, j, put, done, base, base + 1, base + 1)
    requires rs.links[j].c.slot.Some?
    requires rs.p.clients[j].pc == if rs.p.second then WaitDecision else WaitRequest
    ensures At(c, r0, rt) && Midway(c, rt, j, put, done, base, base + 1, base + 1) && Elsewhere(c, rs, rt, j)
    ensures rt.p == rs.p.(clients := rt.p.clients) && rt.links[j].c.slot.None? && rt.links[j].s == rs.links[j].s
    ensures rt.p.clients[j].pc == if rs.p.second then Acking else Voting
  {
    SlotIsExpected(c, r0, rs, j);
    rt := Calls(c, r0, rs, j, Peer(j, Receive), BLANK, BLANK.msg);
  }

  lemma Replying(c: Config, r0: RSys, rs: RSys, j: nat, put: set<nat>, done: set<nat>, base: nat) returns (rt: RSys)
    requires At(c, r0, rs) && Midway(c, rs, j, put, done, base, base + 1, base + 1) && rs.links[j].c.slot.None?
    requires rs.p.clients[j].pc == if rs.p.second then Acking else Voting
    ensures At(c, r0, rt) && Midway(c, rt, j, put, done, base, base + 2, base + 1) && Elsewhere(c, rs, rt, j)
    ensures rt.p == rs.p.(clients := rt.p.clients) && rt.links[j].c.slot.None? && rt.links[j].s == rs.links[j].s
    ensures rt.p.clients[j].pc == if rs.p.second then AckSent else VoteSent
    ensures rt.links[j].c.outBuf.num == base + 1 && rt.links[j].c.outBuf in rt.links[j].toS
  {
    var e := Effect(c, rs.p, Peer(j, Reply));
    rt := Calls(c, r0, rs, j, Peer(j, Reply), BLANK, Payload(e.m, 0, 0, 0));
  }

  /** A worker that is in its pass takes, posts, releases and counts the reply. */
  lemma Fetching(c: Config, r0: RSys, rs: RSys, j: nat, put: set<nat>, done: set<nat>, base: nat) returns (rt: RSys)
    requires At(c, r0, rs) && Midway(c, rs, j, put, done, base, base + 2, base + 1) && AllPass(rs.p)
    requires rs.links[j].c.outBuf.num == base + 1 && rs.links[j].c.outBuf in rs.links[j].toS
    ensures At(c, r0, rt) && Midway(c, rt, j, put, done, base, base + 2, base + 2) && Elsewhere(c, rs, rt, j)
    ensures rt.p.clients == rs.p.clients && rt.links[j].c == rs.links[j].c && rt.links[j].s.seqNo == base + 1
    ensures c.owner[j] < |rt.p.workers| && rt.p.workers[c.owner[j]].Got? && rt.p.workers[c.owner[j]].j == j
    ensures forall t :: 0 <= t < |rt.p.workers| && t != c.owner[j] ==> rt.p.workers[t] == Pass
  {
    Facts(c, r0, rs);
    assert Couple(c, rs.p, rs.links[j], j);
    rt := Calls(c, r0, rs, j, Worker(c.owner[j], Fetch(j)), rs.links[j].c.outBuf, BLANK.msg);
  }

  lemma Releasing(c: Config, r0: RSys, rs: RSys, j: nat, put: set<nat>, done: set<nat>, base: nat) returns (rt: RSys)
    requires At(c, r0, rs) && Midway(c, rs, j, put, done, base, base + 2, base + 2) && c.owner[j] < |rs.p.workers|
    requires rs.p.workers[c.owner[j]].Got? && rs.p.workers[c.owner[j]].j == j
    requires forall t :: 0 <= t < |rs.p.workers| && t != c.owner[j] ==> rs.p.workers[t] == Pass
    ensures At(c, r0, rt) && Midway(c, rt, j, put, done, base, base + 2, base + 2) && Elsewhere(c, rs, rt, j)
    ensures rt.p.clients == rs.p.clients && rt.links[j].c == rs.links[j].c
    ensures rt.links[j].s.seqNo == rs.links[j].s.seqNo && rt.links[j].s.slot.None?
    ensures c.owner[j] < |rt.p.workers| && rt.p.workers[c.owner[j]] == Released(j)
    ensures forall t :: 0 <= t < |rt.p.workers| && t != c.owner[j] ==> rt.p.workers[t] == Pass
  {
    var s1 := Recorded(c, r0, rs, j, put, done, base);
    rt := Calls(c, r0, s1, j, Worker(c.owner[j], EndRead), BLANK, BLANK.msg);
    ReleaseIsWork(c, s1, rt, c.owner[j], j);
  }

  lemma ReleaseIsWork(c: Config, rs: RSys, rt: RSys, t: nat, j: nat)
    requires RShaped(c, rs) && CanWorker(c, rs.p, t, EndRead) && WorkerEffect(c, rs.p, t, EndRead) == Release(j) && j < c.n
    requires rt.p == WorkerNext(c, rs.p, t, EndRead, Handed(rs.links[j], Release(j), BLANK))
    requires rt.links == rs.links[j := OnLink(rs.links[j], Release(j), BLANK, BLANK.msg)]
    ensures RShaped(c, rt) && rt.p == rs.p.(workers := rs.p.workers[t := Released(j)])
    ensures rt.links == rs.links[j := rs.links[j].(s := rs.links[j].s.(slot := None))]
  {
  }

  lemma Recorded(c: Config, r0: RSys, rs: RSys, j: nat, put: set<nat>, done: set<nat>, base: nat) returns (rt: RSys)
    requires At(c, r0, rs) && Midway(c, rs, j, put, done, base, base + 2, base + 2) && c.owner[j] < |rs.p.workers|
    requires rs.p.workers[c.owner[j]].Got? && rs.p.workers[c.owner[j]].j == j
    ensures At(c, r0, rt) && Midway(c, rt, j, put, done, base, base + 2, base + 2) && Elsewhere(c, rs, rt, j)
    ensures rt.p.clients == rs.p.clients && rt.links == rs.links
    ensures rt.p.workers == rs.p.workers[c.owner[j] := Posted(j)]
  {
    Facts(c, r0, rs);
    WorkerFacts(c, rs, c.owner[j]);
    rt := Works(c, r0, rs, c.owner[j], Post);
  }

  lemma Counting(c: Config, r0: RSys, rs: RSys, j: nat, put: set<nat>, done: set<nat>, base: nat) returns (rt: RSys)
    requires At(c, r0, rs) && Midway(c, rs, j, put, done, base, base + 2, base + 2) && c.owner[j] < |rs.p.workers|
    requires rs.p.workers[c.owner[j]] == Released(j) && rs.links[j].s.slot.None?
    requires forall t :: 0 <= t < |rs.p.workers| && t != c.owner[j] ==> rs.p.workers[t] == Pass
    ensures At(c, r0, rt) && Midway(c, rt, j, put, done, base, base + 2, base + 2) && Elsewhere(c, rs, rt, j)
    ensures rt.p.clients == rs.p.clients && rt.links == rs.links && AllPass(rt.p)
  {
    var s1 := Works(c, r0, rs, c.owner[j], Load);
    rt := Works(c, r0, s1, c.owner[j], Store);
  }

  lemma Finishing(c: Config, r0: RSys, rs: RSys, j: nat, put: set<nat>, done: set<nat>, base: nat) returns (rt: RSys)
    requires At(c, r0, rs) && Midway(c, rs, j, put, done, base, base + 2, base + 2) && AllPass(rs.p)
    requires rs.links[j].c.slot.None? && rs.links[j].s.slot.None? && rs.links[j].s.seqNo == base + 1
    ensures At(c, r0, rt) && RShaped(c, rt) && Elsewhere(c, rs, rt, j) && rt.p == rs.p.(pc := Sending(put + {j}, done + {j}))
    ensures Even(rt.links[j], base + 1)
  {
    rt := Calls(c, r0, rs, j, Main(Acknowledged), BLANK, BLANK.msg);
    AcknowledgedIsEven(c, rs, rt, j, put, done, base);
  }

  lemma AcknowledgedIsEven(c: Config, rs: RSys, rt: RSys, j: nat, put: set<nat>, done: set<nat>, base: nat)
    requires Midway(c, rs, j, put, done, base, base + 2, base + 2)
    requires rs.links[j].c.slot.None? && rs.links[j].s.slot.None?
    requires rt.p == MainNext(c, rs.p, Acknowledged, Handed(rs.links[j], Acked(j), BLANK))
    requires rt.links == rs.links[j := OnLink(rs.links[j], Acked(j), BLANK, BLANK.msg)]
    ensures RShaped(c, rt) && Elsewhere(c, rs, rt, j) && rt.p == rs.p.(pc := Sending(put + {j}, done + {j}))
    ensures Even(rt.links[j], base + 1)
  {
  }

  /** Main writes to connection j, and the client takes the message. */
  lemma Hearing(c: Config, r0: RSys, rs: RSys, j: nat, put: set<nat>, done: set<nat>) returns (rt: RSys)
    requires At(c, r0, rs) && rs.p.pc == Sending(put, done) && !rs.p.stop && j < c.n && j !in put && j !in done && AllPass(rs.p)
    requires Even(rs.links[j], Base(rs.p)) && Waits(rs.p.clients[j].pc, rs.p.second)
    ensures At(c, r0, rt) && Midway(c, rt, j, put, done, Base(rs.p), Base(rs.p) + 1, Base(rs.p) + 1) && Elsewhere(c, rs, rt, j)
    ensures AllPass(rt.p) && rt.links[j].c.slot.None? && rt.p.clients[j].pc == if rs.p.second then Acking else Voting
  {
    var base := Base(rs.p);
    rt := Recording(c, r0, rs, j, put, done);
    rt := Delivering(c, r0, rt, j, put, done, base);
    rt := Confirming(c, r0, rt, j, put, done, base);
    rt := Receiving(c, r0, rt, j, put, done, base);
  }

  /** The client answers, and its worker takes and counts the answer. */
  lemma Answering(c: Config, r0: RSys, rs: RSys, j: nat, put: set<nat>, done: set<nat>, base: nat) returns (rt: RSys)
    requires At(c, r0, rs) && Midway(c, rs, j, put, done, base, base + 1, base + 1) && AllPass(rs.p)
    requires rs.links[j].c.slot.None? && rs.p.clients[j].pc == if rs.p.second then Acking else Voting
    ensures At(c, r0, rt) && Midway(c, rt, j, put, done, base, base + 2, base + 2) && Elsewhere(c, rs, rt, j) && AllPass(rt.p)
    ensures rt.links[j].c.slot.None? && rt.links[j].s.slot.None? && rt.links[j].s.seqNo == base + 1
    ensures Waits(rt.p.clients[j].pc, !rs.p.second)
  {
    rt := Replying(c, r0, rs, j, put, done, base);
    rt := Fetching(c, r0, rt, j, put, done, base);
    rt := Releasing(c, r0, rt, j, put, done, base);
    rt := Counting(c, r0, rt, j, put, done, base);
  }

  /** ONE EXCHANGE. Main writes to connection j, the client takes the message and answers, its
      worker takes and counts the answer, and main learns that the write is acknowledged. */
  lemma Exchange(c: Config, r0: RSys, rs: RSys, j: nat, put: set<nat>, done: set<nat>) returns (rt: RSys)
    requires At(c, r0, rs) && rs.p.pc == Sending(put, done) && !rs.p.stop && j < c.n && j !in put && j !in done && AllPass(rs.p)
    requires Even(rs.links[j], Base(rs.p)) && Waits(rs.p.clients[j].pc, rs.p.second)
    ensures At(c, r0, rt) && RShaped(c, rt) && Elsewhere(c, rs, rt, j) && AllPass(rt.p) && rt.p.pc == Sending(put + {j}, done + {j})
    ensures Even(rt.links[j], Base(rs.p) + 1) && Waits(rt.p.clients[j].pc, !rs.p.second)
  {
    rt := Hearing(c, r0, rs, j, put, done);
    rt := Answering(c, r0, rt, j, put, done, Base(rs.p));
    rt := Finishing(c, r0, rt, j, put, done, Base(rs.p));
  }

  // ------------------------------------- an exchange that is already under way

  /** Main is about to look at the result of a write to connection j that it has recorded and
      that has not lost the race. */
  ghost predicate Looking(c: Config, rs: RSys, j: nat, put: set<nat>, done: set<nat>) {
    && RShaped(c, rs) && j < c.n && j in put && j !in done && rs.p.pc == Checking(j, put, done) && !rs.p.stop && AllPass(rs.p)
    && rs.links[j].stage == Waiting && !RaceLost(rs.links[j]) && rs.p.clients[j].pc != Dead
  }

  /** The four places where such an exchange can be: the client has not accepted the message, it
      has not released it, it has not answered, the answer is not accepted, or it is. */
  lemma WhereItIs(c: Config, rs: RSys, j: nat, put: set<nat>, done: set<nat>)
    requires RInv(c, rs) && Looking(c, rs, j, put, done)
    ensures UnreadOrRead(c, rs, j, put, done)
    ensures var l, base, pc := rs.links[j], Base(rs.p), rs.p.clients[j].pc;
            && (l.c.seqNo != base && l.s.seqNo == base ==>
                  |l.gotS| == base + 1 &&
                  if l.c.slot.Some? then |l.sentC| == base + 1 && Waits(pc, rs.p.second)
                  else if pc == Voting || pc == Acking then |l.sentC| == base + 1 && pc == if rs.p.second then Acking else Voting
                  else |l.sentC| == base + 2 && l.c.outstanding && l.c.outBuf.num == base + 1 && Waits(pc, !rs.p.second))
            && (l.s.seqNo == base + 1 ==> |l.gotS| == |l.sentC| == base + 2 && l.c.slot.None? && Waits(pc, !rs.p.second))
  {
    HowFarItIs(c, rs, j, put, done);
    assert Couple(c, rs.p, rs.links[j], j) && ConnInv(c, rs.p, Abstract(rs).ch[j], j);
    WhereTheAnswerIs(c, rs.p, rs.links[j], j, put, done);
  }

  lemma WhereTheAnswerIs(c: Config, p: Program, l: Link, j: nat, put: set<nat>, done: set<nat>)
    requires ValidConfig(c) && Shaped(c, p) && j < c.n && Couple(c, p, l, j) && ConnInv(c, p, AsChan(l), j)
    requires p.pc == Checking(j, put, done) && !p.stop && Flags(c, p) && p.clients[j].pc != Dead
    requires |l.sentS| == |l.gotC| == l.c.seqNo == Base(p) + 1 || (l.c.seqNo == Base(p) && l.s.seqNo == Base(p))
    ensures var base, pc := Base(p), p.clients[j].pc;
            && (l.c.seqNo != base && l.s.seqNo == base ==>
                  |l.gotS| == base + 1 &&
                  if l.c.slot.Some? then |l.sentC| == base + 1 && Waits(pc, p.second)
                  else if pc == Voting || pc == Acking then |l.sentC| == base + 1 && pc == if p.second then Acking else Voting
                  else |l.sentC| == base + 2 && l.c.outstanding && l.c.outBuf.num == base + 1 && Waits(pc, !p.second))
            && (l.s.seqNo == base + 1 ==> |l.gotS| == |l.sentC| == base + 2 && l.c.slot.None? && Waits(pc, !p.second))
  {
  }

  /** Either the client has not accepted the message, or it has. */
  ghost predicate UnreadOrRead(c: Config, rs: RSys, j: nat, put: set<nat>, done: set<nat>)
    requires RShaped(c, rs) && j < c.n
  {
    var l, base, pc := rs.links[j], Base(rs.p), rs.p.clients[j].pc;
    && l.s.currentSeq == base && l.s.outBuf.num == base && |l.sentS| == base + 1 && l.s.slot.None?
    && (l.c.seqNo == base || Midway(c, rs, j, put, done, base, |l.sentC|, |l.gotS|))
    && (l.c.seqNo == base ==>
          |l.gotC| == base && |l.sentC| == |l.gotS| == base + 1 && l.c.slot.None? && l.s.seqNo == base && Waits(pc, rs.p.second))
    && (l.c.seqNo != base ==> l.c.seqNo == base + 1 && (l.s.seqNo == base || l.s.seqNo == base + 1))
  }

  lemma HowFarItIs(c: Config, rs: RSys, j: nat, put: set<nat>, done: set<nat>)
    requires RInv(c, rs) && Looking(c, rs, j, put, done)
    ensures UnreadOrRead(c, rs, j, put, done)
  {
    assert Couple(c, rs.p, rs.links[j], j) && ConnInv(c, rs.p, Abstract(rs).ch[j], j);
    assert put + {j} == put;
  }

  /** Main sends its message again. */
  lemma Rewriting(c: Config, r0: RSys, rs: RSys, j: nat, put: set<nat>, done: set<nat>) returns (rt: RSys)
    requires At(c, r0, rs) && Looking(c, rs, j, put, done) && rs.links[j].c.seqNo == Base(rs.p)
    ensures At(c, r0, rt) && Written(c, rt, j, put, done, Base(rs.p)) && Elsewhere(c, rs, rt, j) && rt.p == rs.p
  {
    Facts(c, r0, rs);
    WhereItIs(c, rs, j, put, done);
    assert put + {j} == put;
    rt := Go(c, r0, rs, Inside(j, ServerRetry));
  }

  lemma FromUnread(c: Config, r0: RSys, rs: RSys, j: nat, put: set<nat>, done: set<nat>) returns (rt: RSys)
    requires At(c, r0, rs) && Looking(c, rs, j, put, done) && rs.links[j].c.seqNo == Base(rs.p)
    ensures At(c, r0, rt) && Midway(c, rt, j, put, done, Base(rs.p), Base(rs.p) + 1, Base(rs.p) + 1) && Elsewhere(c, rs, rt, j)
    ensures AllPass(rt.p) && rt.links[j].c.slot.Some? && Waits(rt.p.clients[j].pc, rt.p.second)
  {
    rt := Rewriting(c, r0, rs, j, put, done);
    rt := Delivering(c, r0, rt, j, put, done, Base(rs.p));
  }

  lemma FromUnreleased(c: Config, r0: RSys, rs: RSys, j: nat, put: set<nat>, done: set<nat>, base: nat) returns (rt: RSys)
    requires At(c, r0, rs) && Midway(c, rs, j, put, done, base, base + 1, base + 1) && AllPass(rs.p)
    requires rs.links[j].c.slot.Some? && Waits(rs.p.clients[j].pc, rs.p.second)
    ensures At(c, r0, rt) && Midway(c, rt, j, put, done, base, base + 2, base + 2) && Elsewhere(c, rs, rt, j) && AllPass(rt.p)
    ensures rt.links[j].c.slot.None? && rt.links[j].s.slot.None? && rt.links[j].s.seqNo == base + 1
    ensures Waits(rt.p.clients[j].pc, !rs.p.second)
  {
    rt := Confirming(c, r0, rs, j, put, done, base);
    rt := Receiving(c, r0, rt, j, put, done, base);
    rt := Answering(c, r0, rt, j, put, done, base);
  }

  /** The client sends its answer again. */
  lemma Resending(c: Config, r0: RSys, rs: RSys, j: nat, put: set<nat>, done: set<nat>, base: nat) returns (rt: RSys)
    requires At(c, r0, rs) && Midway(c, rs, j, put, done, base, base + 2, base + 1)
    requires rs.links[j].c.slot.None? && rs.links[j].c.outstanding && rs.links[j].c.outBuf.num == base + 1
    requires Waits(rs.p.clients[j].pc, !rs.p.second)
    ensures At(c, r0, rt) && Midway(c, rt, j, put, done, base, base + 2, base + 1) && Elsewhere(c, rs, rt, j) && rt.p == rs.p
    ensures rt.links[j].c.slot.None? && rt.links[j].c.outBuf.num == base + 1 && rt.links[j].c.outBuf in rt.links[j].toS
  {
    Facts(c, r0, rs);
    assert Couple(c, rs.p, rs.links[j], j);
    rt := Go(c, r0, rs, Inside(j, ClientRetry));
  }

  lemma FromAnswered(c: Config, r0: RSys, rs: RSys, j: nat, put: set<nat>, done: set<nat>, base: nat) returns (rt: RSys)
    requires At(c, r0, rs) && Midway(c, rs, j, put, done, base, base + 2, base + 1) && AllPass(rs.p)
    requires rs.links[j].c.slot.None? && rs.links[j].c.outstanding && rs.links[j].c.outBuf.num == base + 1
    requires Waits(rs.p.clients[j].pc, !rs.p.second)
    ensures At(c, r0, rt) && Midway(c, rt, j, put, done, base, base + 2, base + 2) && Elsewhere(c, rs, rt, j) && AllPass(rt.p)
    ensures rt.links[j].c.slot.None? && rt.links[j].s.slot.None? && rt.links[j].s.seqNo == base + 1
    ensures Waits(rt.p.clients[j].pc, !rs.p.second)
  {
    rt := Resending(c, r0, rs, j, put, done, base);
    rt := Fetching(c, r0, rt, j, put, done, base);
    rt := Releasing(c, r0, rt, j, put, done, base);
    rt := Counting(c, r0, rt, j, put, done, base);
  }

  lemma FromRead(c: Config, r0: RSys, rs: RSys, j: nat, put: set<nat>, done: set<nat>) returns (rt: RSys)
    requires At(c, r0, rs) && Looking(c, rs, j, put, done) && rs.links[j].c.seqNo != Base(rs.p) && rs.links[j].s.seqNo == Base(rs.p)
    ensures At(c, r0, rt) && Midway(c, rt, j, put, done, Base(rs.p), Base(rs.p) + 2, Base(rs.p) + 2)
    ensures Elsewhere(c, rs, rt, j) && AllPass(rt.p)
    ensures rt.links[j].c.slot.None? && rt.links[j].s.slot.None? && rt.links[j].s.seqNo == Base(rs.p) + 1
    ensures Waits(rt.p.clients[j].pc, !rs.p.second)
  {
    Facts(c, r0, rs);
    WhereItIs(c, rs, j, put, done);
    if rs.links[j].c.slot.Some? {
      rt := FromUnreleased(c, r0, rs, j, put, done, Base(rs.p));
    } else if rs.p.clients[j].pc == Voting || rs.p.clients[j].pc == Acking {
      rt := Answering(c, r0, rs, j, put, done, Base(rs.p));
    } else {
      rt := FromAnswered(c, r0, rs, j, put, done, Base(rs.p));
    }
  }

  /** The client's answer is taken by the worker, if it was not before. */
  lemma ToAnswerTaken(c: Config, r0: RSys, rs: RSys, j: nat, put: set<nat>, done: set<nat>) returns (rt: RSys)
    requires At(c, r0, rs) && Looking(c, rs, j, put, done)
    ensures At(c, r0, rt) && Midway(c, rt, j, put, done, Base(rs.p), Base(rs.p) + 2, Base(rs.p) + 2)
    ensures Elsewhere(c, rs, rt, j) && AllPass(rt.p)
    ensures rt.links[j].c.slot.None? && rt.links[j].s.slot.None? && rt.links[j].s.seqNo == Base(rs.p) + 1
    ensures Waits(rt.p.clients[j].pc, !rs.p.second)
  {
    var base := Base(rs.p);
    Facts(c, r0, rs);
    WhereItIs(c, rs, j, put, done);
    rt := rs;
    if rs.links[j].c.seqNo == base {
      rt := FromUnread(c, r0, rs, j, put, done);
      rt := FromUnreleased(c, r0, rt, j, put, done, base);
    } else if rs.links[j].s.seqNo == base {
      rt := FromRead(c, r0, rs, j, put, done);
    }
  }

  /** ANY EXCHANGE CAN BE FINISHED, wherever it is, if its write has not lost the race. */
  lemma FinishExchange(c: Config, r0: RSys, rs: RSys, j: nat, put: set<nat>, done: set<nat>) returns (rt: RSys)
    requires At(c, r0, rs) && Looking(c, rs, j, put, done)
    ensures At(c, r0, rt) && RShaped(c, rt) && Elsewhere(c, rs, rt, j) && AllPass(rt.p) && rt.p.pc == Sending(put, done + {j})
    ensures rt.p.clients[j].pc != Dead
  {
    rt := ToAnswerTaken(c, r0, rs, j, put, done);
    assert put + {j} == put;
    rt := Finishing(c, r0, rt, j, put, done, Base(rs.p));
  }

  /** A connection to which nothing is being written is even, if the workers are in their passes. */
  lemma IdleIsEven(c: Config, rs: RSys, j: nat)
    requires RInv(c, rs) && !rs.p.stop && !rs.p.pc.Halted? && !rs.p.pc.Connecting? && j < c.n && AllPass(rs.p)
    requires (rs.links[j].stage == Idle || rs.links[j].stage == RudpLink.Stamped) && rs.p.clients[j].pc != Dead
    ensures var down := DownLen(rs.p, j); Even(rs.links[j], down) && Waits(rs.p.clients[j].pc, down % 2 == 1)
  {
    assert Couple(c, rs.p, rs.links[j], j) && ConnInv(c, rs.p, Abstract(rs).ch[j], j);
    IdleLink(c, rs.p, rs.links[j], j);
  }

  lemma IdleLink(c: Config, p: Program, l: Link, j: nat)
    requires ValidConfig(c) && Shaped(c, p) && j < c.n && Couple(c, p, l, j) && ConnInv(c, p, AsChan(l), j) && AllPass(p)
    requires !p.cut && !p.pc.Halted? && !p.pc.Connecting? && p.clients[j].pc != Dead
    requires l.stage == Idle || l.stage == RudpLink.Stamped
    ensures Even(l, DownLen(p, j)) && Waits(p.clients[j].pc, DownLen(p, j) % 2 == 1)
  {
  }
}
