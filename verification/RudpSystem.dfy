/** The two-phase-commit program over reliable-UDP connections, and the proof that it
    refines the program over FIFO channels: every state of every run, seen through
    `Abstract`, is a state of a FIFO run. All theorems about FIFO runs carry over. */
module RudpSystem {
  import opened Messages
  import opened Channel
  import opened TwoPhase
  import opened FifoSystem
  import opened CommitInvariant
  import opened Transport
  import opened RudpEndpoint
  import opened RudpLink

  datatype RSys = RSys(p: Program, links: seq<Link>)

  /** A program step (with the datagram that a read finds and the payload that a write
      carries), or a step inside a transport call: an accepted or dropped read of the
      client, a retransmission, or the coordinator's recording of current_seq. */
  datatype RAct = Prog(a: Act, p: Packet, m: Payload) | Inside(j: nat, la: LinkAct)

  // ----------------------------------------------------------------- abstraction

  function Cores(s: seq<Payload>): (r: seq<Msg>)
    ensures |r| == |s| && forall k :: 0 <= k < |s| ==> r[k] == s[k].core
  {
    seq(|s|, k requires 0 <= k < |s| => s[k].core)
  }

  lemma CoresOfOneMore(s: seq<Payload>, m: Payload)
    ensures Cores(s + [m]) == Cores(s) + [m.core]
  {
  }

  /** A link as a FIFO channel: a message counts as taken by the client once it has left
      the client's read slot, and as taken by the coordinator once it was accepted. */
  function AsChan(l: Link): Chan {
    Chan(Cores(l.sentS), |l.gotC| - (if l.c.slot.Some? && |l.gotC| > 0 then 1 else 0),
         Cores(l.sentC), |l.gotS|)
  }

  function Abstract(rs: RSys): Sys {
    Sys(rs.p, seq(|rs.links|, j requires 0 <= j < |rs.links| => AsChan(rs.links[j])))
  }

  // ----------------------------------------------------------------------- steps

  /** What a call that label t stands for finds on its link. */
  predicate Offers(l: Link, t: Label, p: Packet, m: Payload) {
    match t
    case Begin(_, msg) => m.core == msg
    case ClientPut(_, msg) => m.core == msg
    case Acked(_) => l.stage == Waiting && AckSeen(l.s)
    case ClientAcked(_) => AckSeen(l.c)
    case Take(_) => (l.s.slot.Some? || p in l.toS) && BegRead(l.s, Datagram(p)).code == ENone
    case Drain(_) => (l.s.slot.Some? || p in l.toS) && BegRead(l.s, Datagram(p)).code == ENone
    case ClientTake(_) => l.c.slot.Some?
    case _ => true
  }

  function OnLink(l: Link, t: Label, p: Packet, m: Payload): Link {
    match t
    case Begin(_, _) => LinkStep(l, ServerBegin(m))
    case Put(_, _) => LinkStep(l, ServerSend)
    case Acked(_) => LinkStep(l, ServerAck)
    case Take(_) => LinkStep(l, ServerRead(p))
    case Release(_) => LinkStep(l, ServerRelease)
    case Drain(_) => LinkStep(LinkStep(l, ServerRead(p)), ServerRelease)
    case ClientPut(_, _) => LinkStep(l, ClientSend(m))
    case ClientAcked(_) => LinkStep(l, ClientAck)
    case ClientTake(_) => LinkStep(l, ClientRelease)
    case Tau => l
  }

  /** The message that a reading call hands to the program. */
  function Handed(l: Link, t: Label, p: Packet): Msg {
    match t
    case Take(_) => if l.s.slot.Some? then l.s.slot.value.msg.core else p.msg.core
    case Drain(_) => if l.s.slot.Some? then l.s.slot.value.msg.core else p.msg.core
    case ClientTake(_) => if l.c.slot.Some? then l.c.slot.value.msg.core else p.msg.core
    case _ => Msg(Lost, SERVER_ID)
  }

  predicate RShaped(c: Config, rs: RSys) {
    Shaped(c, rs.p) && |rs.links| == c.n
  }

  /** Control flow of the calls: clients read and retransmit only while they wait, the
      coordinator retransmits only inside end_write, after it has recorded current_seq. */
  predicate CanInside(c: Config, rs: RSys, j: nat, la: LinkAct)
    requires RShaped(c, rs)
  {
    j < c.n && Possible(rs.links[j], la) &&
    match la
    case ClientRead(_) => rs.p.clients[j].pc in {HelloSent, VoteSent, AckSent, WaitRequest, WaitDecision}
    case ClientRetry => rs.p.clients[j].pc in {HelloSent, VoteSent, AckSent}
    case ServerRecord => rs.links[j].stage == Sent
    case ServerRetry => rs.links[j].stage == Waiting
    case _ => false
  }

  predicate RCan(c: Config, rs: RSys, ra: RAct)
    requires RShaped(c, rs)
  {
    match ra
    case Inside(j, la) => CanInside(c, rs, j, la)
    case Prog(a, p, m) =>
      Can(c, rs.p, a) &&
      var t := Effect(c, rs.p, a);
      t == Tau || (t.j < c.n && Offers(rs.links[t.j], t, p, m))
  }

  function RApply(c: Config, rs: RSys, ra: RAct): (r: RSys)
    requires RShaped(c, rs) && RCan(c, rs, ra)
    ensures RShaped(c, r)
  {
    match ra
    case Inside(j, la) => rs.(links := rs.links[j := LinkStep(rs.links[j], la)])
    case Prog(a, p, m) =>
      var t := Effect(c, rs.p, a);
      if t == Tau then rs.(p := Next(c, rs.p, a, Msg(Lost, SERVER_ID)))
      else RSys(Next(c, rs.p, a, Handed(rs.links[t.j], t, p)),
                rs.links[t.j := OnLink(rs.links[t.j], t, p, m)])
  }

  function InitRSys(c: Config): RSys {
    RSys(InitProgram(c), seq(c.n, _ => INIT_LINK))
  }

  function RRun(c: Config, acts: seq<RAct>): (r: Option<RSys>)
    ensures r.Some? ==> RShaped(c, r.value)
  {
    if acts == [] then Some(InitRSys(c))
    else
      var prev := RRun(c, acts[..|acts| - 1]);
      if prev.Some? && RCan(c, prev.value, acts[|acts| - 1])
      then Some(RApply(c, prev.value, acts[|acts| - 1]))
      else None
  }

  // -------------------------------------------------------------------- coupling

  predicate ClientCouple(cl: Client, l: Link) {
    && (cl.pc in {HelloSent, VoteSent, AckSent} ==> l.c.outstanding)
    && (cl.pc in {Fresh, WaitRequest, Voting, WaitDecision, Acking} ==> !l.c.outstanding)
    && (cl.pc in {Fresh, Voting, Acking} ==> l.c.slot.None?)
  }

  /** The coordinator's read slot is occupied exactly while a worker holds the message. */
  predicate WorkerCouple(w: WorkerPc, l: Link, j: nat) {
    l.s.slot.Some? <==> (w.Got? || w.Posted?) && w.j == j
  }

  /** Where the write on connection j is, from where main is in send_request. */
  predicate MainCouple(c: Config, p: Program, l: Link, j: nat) {
    !p.cut && !p.pc.Halted? ==>
      match p.pc
      case Stamping(k) =>
        if j < k then l.stage == Stamped && l.s.outBuf.msg.core == Outgoing(p) else l.stage == Idle
      case Sending(put, done) => WriteCouple(p, l, j, put, done)
      case Writing(_, put, done) => WriteCouple(p, l, j, put, done)
      case Checking(_, put, done) => WriteCouple(p, l, j, put, done)
      case _ => l.stage == Idle
  }

  predicate WriteCouple(p: Program, l: Link, j: nat, put: set<nat>, done: set<nat>) {
    if j !in put then l.stage == Stamped && l.s.outBuf.msg.core == Outgoing(p)
    else if j !in done then l.stage == Sent || l.stage == Waiting
    else l.stage == Idle
  }

  predicate Couple(c: Config, p: Program, l: Link, j: nat)
    requires ValidConfig(c) && Shaped(c, p) && j < c.n
  {
    && LinkInv(l)
    && ClientCouple(p.clients[j], l)
    && WorkerCouple(p.workers[c.owner[j]], l, j)
    && MainCouple(c, p, l, j)
  }

  ghost predicate RInv(c: Config, rs: RSys) {
    && ValidConfig(c) && RShaped(c, rs)
    && Inv(c, Abstract(rs))
    && forall j :: 0 <= j < c.n ==> Couple(c, rs.p, rs.links[j], j)
  }

  // -------------------------------------------------- a link step as a channel step

  lemma ReadIsLabel(l: Link, t: Label, p: Packet, m: Payload)
    requires LinkInv(l) && Offers(l, t, p, m) && (t.Take? || t.Drain?) && l.s.slot.None?
    ensures ReadyOn(AsChan(l), t)
    ensures AsChan(OnLink(l, t, p, m)) == Touch(AsChan(l), t)
    ensures Handed(l, t, p) == Head(AsChan(l), t)
  {
    assert Genuine(p, l.sentC);
  }

  lemma WriteIsLabel(l: Link, t: Label, p: Packet, m: Payload)
    requires LinkInv(l) && Offers(l, t, p, m)
    requires (t.Put? && l.stage == Stamped && l.s.outBuf.msg.core == t.m) || (t.ClientPut? && Contract(l, ClientSend(m)))
    ensures AsChan(OnLink(l, t, p, m)) == Touch(AsChan(l), t)
  {
    CoresOfOneMore(l.sentS, l.s.outBuf.msg);
    CoresOfOneMore(l.sentC, m);
  }

  /** On a link, a call in contract does to the abstract channel what its label says. */
  lemma CallIsLabel(l: Link, t: Label, p: Packet, m: Payload)
    requires LinkInv(l) && Offers(l, t, p, m)
    requires t.Take? || t.Drain? ==> l.s.slot.None?
    requires t.Put? ==> l.stage == Stamped && l.s.outBuf.msg.core == t.m
    requires t.ClientPut? ==> Contract(l, ClientSend(m))
    ensures ReadyOn(AsChan(l), t)
    ensures AsChan(OnLink(l, t, p, m)) == Touch(AsChan(l), t)
    ensures Handed(l, t, p) == Head(AsChan(l), t)
  {
    if t.Take? || t.Drain? {
      ReadIsLabel(l, t, p, m);
    } else if t.Put? || t.ClientPut? {
      WriteIsLabel(l, t, p, m);
    }
  }

  /** Steps inside a call are invisible on the abstract channel. */
  lemma InsideIsSilent(l: Link, la: LinkAct)
    requires LinkInv(l) && Possible(l, la)
    requires la.ClientRead? || la.ClientRetry? || la.ServerRecord? || la.ServerRetry?
    ensures AsChan(LinkStep(l, la)) == AsChan(l)
  {
    if la.ClientRead? {
      assert Genuine(la.p, l.sentS);
    }
  }

  lemma CallKeepsLink(l: Link, t: Label, p: Packet, m: Payload)
    requires LinkInv(l) && Offers(l, t, p, m)
    requires t.Take? || t.Drain? ==> l.s.slot.None?
    requires t.Begin? ==> Contract(l, ServerBegin(m))
    requires t.Put? ==> Contract(l, ServerSend)
    requires t.ClientPut? ==> Contract(l, ClientSend(m))
    requires t.ClientAcked? ==> Contract(l, ClientAck)
    ensures LinkInv(OnLink(l, t, p, m))
  {
    match t
    case Tau =>
    case Begin(_, _) => LinkStepKeeps(l, ServerBegin(m));
    case Put(_, _) => LinkStepKeeps(l, ServerSend);
    case Acked(_) => LinkStepKeeps(l, ServerAck);
    case Take(_) => LinkStepKeeps(l, ServerRead(p));
    case Release(_) => LinkStepKeeps(l, ServerRelease);
    case Drain(_) =>
      LinkStepKeeps(l, ServerRead(p));
      LinkStepKeeps(LinkStep(l, ServerRead(p)), ServerRelease);
    case ClientPut(_, _) => LinkStepKeeps(l, ClientSend(m));
    case ClientAcked(_) => LinkStepKeeps(l, ClientAck);
    case ClientTake(_) => LinkStepKeeps(l, ClientRelease);
  }

  // ------------------------------------------- the program keeps the callers' contract

  /** Every call the program makes on a link is in contract: no write begins before the last
      one completed, the coordinator never writes to a client it has not heard from, and a
      worker never finds an old message in the read slot. */
  predicate InContract(l: Link, t: Label, m: Payload) {
    && (t.Take? || t.Drain? ==> l.s.slot.None?)
    && (t.Begin? ==> Contract(l, ServerBegin(m)))
    && (t.Put? ==> Contract(l, ServerSend) && l.s.outBuf.msg.core == t.m)
    && (t.ClientPut? ==> Contract(l, ClientSend(m)))
    && (t.ClientAcked? ==> Contract(l, ClientAck))
  }

  lemma MainInContract(c: Config, rs: RSys, a: MainAct, m: Payload)
    requires RInv(c, rs) && CanMain(c, rs.p, a)
    ensures var t := MainEffect(c, rs.p, a); t != Tau && t.j < c.n ==> InContract(rs.links[t.j], t, m)
  {
    var t := MainEffect(c, rs.p, a);
    if t != Tau && t.j < c.n {
      assert Couple(c, rs.p, rs.links[t.j], t.j);
      assert ConnInv(c, rs.p, Abstract(rs).ch[t.j], t.j);
      if t.Drain? {
        assert WorkerInv(c, Abstract(rs), c.owner[t.j]);
      }
    }
  }

  lemma CallersKeepContract(c: Config, rs: RSys, a: Act, p: Packet, m: Payload)
    requires RInv(c, rs) && RCan(c, rs, Prog(a, p, m))
    ensures var t := Effect(c, rs.p, a); t != Tau ==> InContract(rs.links[t.j], t, m)
  {
    var t := Effect(c, rs.p, a);
    match a
    case Main(ma) => MainInContract(c, rs, ma, m);
    case Worker(w, wa) =>
      if t != Tau {
        assert Couple(c, rs.p, rs.links[t.j], t.j);
      }
    case Peer(j, ca) => assert Couple(c, rs.p, rs.links[j], j);
    case Stop =>
  }

  // ------------------------------------------------------------------- refinement

  /** A program step over links is the same program step over FIFO channels. */
  lemma ProgramStepRefines(c: Config, rs: RSys, a: Act, p: Packet, m: Payload)
    requires RInv(c, rs) && RCan(c, rs, Prog(a, p, m))
    ensures Enabled(c, Abstract(rs), a)
    ensures Abstract(RApply(c, rs, Prog(a, p, m))) == Apply(c, Abstract(rs), a)
  {
    var t := Effect(c, rs.p, a);
    if t != Tau {
      CallersKeepContract(c, rs, a, p, m);
      assert Couple(c, rs.p, rs.links[t.j], t.j);
      CallIsLabel(rs.links[t.j], t, p, m);
    }
    LiftedCall(c, rs, a, p, m);
  }

  /** What a call does to one link, lifted to the whole state. */
  lemma LiftedCall(c: Config, rs: RSys, a: Act, p: Packet, m: Payload)
    requires RShaped(c, rs) && RCan(c, rs, Prog(a, p, m))
    requires var t := Effect(c, rs.p, a); t != Tau ==>
               var l := rs.links[t.j];
               && ReadyOn(AsChan(l), t)
               && AsChan(OnLink(l, t, p, m)) == Touch(AsChan(l), t) && Handed(l, t, p) == Head(AsChan(l), t)
    ensures Enabled(c, Abstract(rs), a)
    ensures Abstract(RApply(c, rs, Prog(a, p, m))) == Apply(c, Abstract(rs), a)
  {
    var t := Effect(c, rs.p, a);
    assert Abstract(RApply(c, rs, Prog(a, p, m))).ch == Transfer(Abstract(rs).ch, t);
  }

  lemma InsideStepRefines(c: Config, rs: RSys, j: nat, la: LinkAct)
    requires RInv(c, rs) && RCan(c, rs, Inside(j, la))
    ensures Abstract(RApply(c, rs, Inside(j, la))) == Abstract(rs)
  {
    assert Couple(c, rs.p, rs.links[j], j);
    InsideIsSilent(rs.links[j], la);
    assert Abstract(RApply(c, rs, Inside(j, la))).ch == Abstract(rs).ch;
  }

  // ------------------------------------------------------------ preserving the coupling

  lemma InsideCouples(c: Config, rs: RSys, i: nat, la: LinkAct, j: nat)
    requires ValidConfig(c) && RShaped(c, rs) && RCan(c, rs, Inside(i, la)) && j < c.n && Couple(c, rs.p, rs.links[j], j)
    ensures var r := RApply(c, rs, Inside(i, la)); Couple(c, r.p, r.links[j], j)
  {
    if i == j {
      LinkStepKeeps(rs.links[j], la);
    }
  }

  lemma SendingCouples(c: Config, p: Program, a: MainAct, msg: Msg, l: Link, pk: Packet, m: Payload, j: nat)
    requires ValidConfig(c) && Shaped(c, p) && Flags(c, p) && j < c.n && CanMain(c, p, a) && Couple(c, p, l, j)
    requires var t := MainEffect(c, p, a); t != Tau && t.j == j ==>
               InContract(l, t, m) && Offers(l, t, pk, m) && LinkInv(OnLink(l, t, pk, m))
    requires a.Stamp? || a.EndWrite? || a.Acknowledged?
    ensures var t := MainEffect(c, p, a);
            Couple(c, MainNext(c, p, a, msg), if t != Tau && t.j == j then OnLink(l, t, pk, m) else l, j)
  {
  }

  lemma LoopCouples(c: Config, p: Program, a: MainAct, msg: Msg, l: Link, j: nat)
    requires ValidConfig(c) && Shaped(c, p) && Flags(c, p) && j < c.n && CanMain(c, p, a) && Couple(c, p, l, j)
    requires a.Pick? || a.Again? || a.Broken? || a.SendExit? || a.Timeout? || a.Poll? || a.Pause? || a.Zero?
    ensures Couple(c, MainNext(c, p, a, msg), l, j)
  {
  }

  lemma PhaseCouples(c: Config, p: Program, a: MainAct, msg: Msg, l: Link, j: nat)
    requires ValidConfig(c) && Shaped(c, p) && Flags(c, p) && j < c.n && CanMain(c, p, a) && Couple(c, p, l, j)
    requires a.Connected? || a.NextRound? || a.Clear? || a.Scan? || a.Resume?
    ensures Couple(c, MainNext(c, p, a, msg), l, j)
  {
  }

  lemma ConnectCouples(c: Config, p: Program, i: nat, msg: Msg, l: Link, pk: Packet, m: Payload, j: nat)
    requires ValidConfig(c) && Shaped(c, p) && j < c.n && CanMain(c, p, Connect(i)) && Couple(c, p, l, j)
    requires i == j ==> InContract(l, Drain(j), m) && Offers(l, Drain(j), pk, m) && LinkInv(OnLink(l, Drain(j), pk, m))
    ensures Couple(c, MainNext(c, p, Connect(i), msg), if i == j then OnLink(l, Drain(j), pk, m) else l, j)
  {
  }

  lemma MainCouples(c: Config, p: Program, a: MainAct, msg: Msg, l: Link, pk: Packet, m: Payload, j: nat)
    requires ValidConfig(c) && Shaped(c, p) && Flags(c, p) && j < c.n && CanMain(c, p, a) && Couple(c, p, l, j)
    requires var t := MainEffect(c, p, a); t != Tau && t.j == j ==>
               InContract(l, t, m) && Offers(l, t, pk, m) && LinkInv(OnLink(l, t, pk, m))
    ensures var t := MainEffect(c, p, a);
            Couple(c, MainNext(c, p, a, msg), if t != Tau && t.j == j then OnLink(l, t, pk, m) else l, j)
  {
    if a.Stamp? || a.EndWrite? || a.Acknowledged? {
      SendingCouples(c, p, a, msg, l, pk, m, j);
    } else if a.Connect? {
      ConnectCouples(c, p, a.j, msg, l, pk, m, j);
    } else if a.Connected? || a.NextRound? || a.Clear? || a.Scan? || a.Resume? {
      PhaseCouples(c, p, a, msg, l, j);
    } else {
      LoopCouples(c, p, a, msg, l, j);
    }
  }

  lemma WorkerCouples(c: Config, p: Program, u: nat, a: WorkerAct, msg: Msg, l: Link, pk: Packet, m: Payload, j: nat)
    requires ValidConfig(c) && Shaped(c, p) && j < c.n && CanWorker(c, p, u, a) && Couple(c, p, l, j)
    requires a.Post? ==> 1 <= p.workers[u].m.src <= c.n
    requires var t := WorkerEffect(c, p, u, a); t != Tau && t.j == j ==>
               InContract(l, t, m) && Offers(l, t, pk, m) && LinkInv(OnLink(l, t, pk, m))
    requires a.EndRead? && p.workers[u].j == j ==> c.owner[j] == u
    ensures var t := WorkerEffect(c, p, u, a);
            Couple(c, WorkerNext(c, p, u, a, msg), if t != Tau && t.j == j then OnLink(l, t, pk, m) else l, j)
  {
  }

  lemma ClientCouples(c: Config, p: Program, i: nat, a: ClientAct, msg: Msg, l: Link, pk: Packet, m: Payload, j: nat)
    requires ValidConfig(c) && Shaped(c, p) && j < c.n && CanClient(c, p, i, a) && Couple(c, p, l, j)
    requires var t := ClientEffect(c, p, i, a); t != Tau && t.j == j ==>
               InContract(l, t, m) && Offers(l, t, pk, m) && LinkInv(OnLink(l, t, pk, m))
    ensures var t := ClientEffect(c, p, i, a);
            Couple(c, ClientNext(c, p, i, a, msg), if t != Tau && t.j == j then OnLink(l, t, pk, m) else l, j)
  {
  }

  lemma WorkerFacts(c: Config, rs: RSys, u: nat)
    requires RInv(c, rs) && u < c.workers
    ensures var w := rs.p.workers[u];
            && (w.Posted? ==> w.j < c.n && c.owner[w.j] == u)
            && (w.Got? ==> 1 <= w.m.src <= c.n)
  {
    assert WorkerInv(c, Abstract(rs), u);
    if rs.p.workers[u].Got? {
      HeldSource(c, Abstract(rs), u);
    }
  }

  /** Any program step, seen from the link of connection j. */
  lemma StepCouples(c: Config, p: Program, a: Act, msg: Msg, l: Link, pk: Packet, m: Payload, j: nat)
    requires ValidConfig(c) && Shaped(c, p) && Flags(c, p) && j < c.n && Can(c, p, a) && Couple(c, p, l, j)
    requires var t := Effect(c, p, a); t != Tau && t.j == j ==>
               InContract(l, t, m) && Offers(l, t, pk, m) && LinkInv(OnLink(l, t, pk, m))
    requires a.Worker? ==> var w := p.workers[a.t];
               && (w.Posted? ==> w.j < c.n && c.owner[w.j] == a.t)
               && (w.Got? ==> 1 <= w.m.src <= c.n)
    ensures var t := Effect(c, p, a);
            Couple(c, Next(c, p, a, msg), if t != Tau && t.j == j then OnLink(l, t, pk, m) else l, j)
  {
    match a
    case Main(ma) => MainCouples(c, p, ma, msg, l, pk, m, j);
    case Worker(u, wa) => WorkerCouples(c, p, u, wa, msg, l, pk, m, j);
    case Peer(i, ca) => ClientCouples(c, p, i, ca, msg, l, pk, m, j);
    case Stop =>
  }

  lemma AppliedAt(c: Config, rs: RSys, a: Act, pk: Packet, m: Payload, j: nat)
    requires RShaped(c, rs) && RCan(c, rs, Prog(a, pk, m)) && j < c.n
    ensures var r, t := RApply(c, rs, Prog(a, pk, m)), Effect(c, rs.p, a);
            && r.p == Next(c, rs.p, a, if t == Tau then Msg(Lost, SERVER_ID) else Handed(rs.links[t.j], t, pk))
            && r.links[j] == if t != Tau && t.j == j then OnLink(rs.links[j], t, pk, m) else rs.links[j]
  {
  }

  lemma ProgramCouples(c: Config, rs: RSys, a: Act, pk: Packet, m: Payload, j: nat)
    requires ValidConfig(c) && RShaped(c, rs) && Flags(c, rs.p) && RCan(c, rs, Prog(a, pk, m)) && j < c.n
    requires Couple(c, rs.p, rs.links[j], j)
    requires var t := Effect(c, rs.p, a); t != Tau ==> InContract(rs.links[t.j], t, m)
    requires a.Worker? ==> var w := rs.p.workers[a.t];
               && (w.Posted? ==> w.j < c.n && c.owner[w.j] == a.t)
               && (w.Got? ==> 1 <= w.m.src <= c.n)
    ensures var r := RApply(c, rs, Prog(a, pk, m)); Couple(c, r.p, r.links[j], j)
  {
    var t, l := Effect(c, rs.p, a), rs.links[j];
    if t != Tau && t.j == j {
      CallKeepsLink(l, t, pk, m);
    }
    var msg := if t == Tau then Msg(Lost, SERVER_ID) else Handed(rs.links[t.j], t, pk);
    StepCouples(c, rs.p, a, msg, l, pk, m, j);
    AppliedAt(c, rs, a, pk, m, j);
  }

  lemma RStepKeeps(c: Config, rs: RSys, ra: RAct)
    requires RInv(c, rs) && RCan(c, rs, ra)
    ensures RInv(c, RApply(c, rs, ra))
  {
    match ra
    case Inside(i, la) =>
      InsideStepRefines(c, rs, i, la);
      forall j | 0 <= j < c.n ensures var r := RApply(c, rs, ra); Couple(c, r.p, r.links[j], j) {
        InsideCouples(c, rs, i, la, j);
      }
    case Prog(a, p, m) =>
      ProgramStepRefines(c, rs, a, p, m);
      StepKeeps(c, Abstract(rs), a);
      CallersKeepContract(c, rs, a, p, m);
      if a.Worker? {
        WorkerFacts(c, rs, a.t);
      }
      forall j | 0 <= j < c.n ensures var r := RApply(c, rs, ra); Couple(c, r.p, r.links[j], j) {
        ProgramCouples(c, rs, a, p, m, j);
      }
  }

  lemma InitRInv(c: Config)
    requires ValidConfig(c)
    ensures RInv(c, InitRSys(c)) && Abstract(InitRSys(c)) == InitSys(c)
  {
    assert Abstract(InitRSys(c)).ch == InitSys(c).ch;
    InitInv(c);
  }

  /** The program steps of a run, transport steps left out. */
  function ProgramSteps(acts: seq<RAct>): seq<Act> {
    if acts == [] then []
    else
      var front := ProgramSteps(acts[..|acts| - 1]);
      match acts[|acts| - 1]
      case Prog(a, _, _) => front + [a]
      case Inside(_, _) => front
  }

  /** REFINEMENT. Leaving out the transport steps turns any run over the lossy network into a
      run over FIFO channels that ends in the abstraction of the same state. */
  lemma {:induction false} RunRefines(c: Config, acts: seq<RAct>)
    requires ValidConfig(c) && RRun(c, acts).Some?
    ensures RInv(c, RRun(c, acts).value)
    ensures Run(c, ProgramSteps(acts)) == Some(Abstract(RRun(c, acts).value))
  {
    if acts == [] {
      InitRInv(c);
    } else {
      var front, ra := acts[..|acts| - 1], acts[|acts| - 1];
      RunRefines(c, front);
      RStepKeeps(c, RRun(c, front).value, ra);
      match ra
      case Inside(j, la) => InsideStepRefines(c, RRun(c, front).value, j, la);
      case Prog(a, p, m) =>
        ProgramStepRefines(c, RRun(c, front).value, a, p, m);
        var steps := ProgramSteps(front) + [a];
        assert steps[..|steps| - 1] == ProgramSteps(front);
    }
  }
}
