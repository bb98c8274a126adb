/** The two-phase-commit program: one coordinator main thread, its worker threads and
    the clients, as interleaved steps over the shared scoreboard, counters and signals.

    A step is one access to shared memory or one call into a connection. The function
    `Next` gives the new program state, `Effect` what the step does to a connection. */
module TwoPhase {
  import opened Messages
  import opened Channel

  /** `owner[j]` is the worker that reads connection j, `ids[j]` the id of the client at
      its far end (1..n, in any order) and `vote(j, r)` that client's vote in round r. */
  datatype Config = Config(n: nat, workers: nat, owner: seq<nat>, ids: seq<int>, vote: (nat, nat) -> bool)

  ghost predicate ValidConfig(c: Config) {
    && |c.owner| == c.n && |c.ids| == c.n
    && (forall j :: 0 <= j < c.n ==> c.owner[j] < c.workers)
    && (forall j :: 0 <= j < c.n ==> 1 <= c.ids[j] <= c.n)
    && (forall i, j :: 0 <= i < j < c.n ==> c.ids[i] != c.ids[j])
  }

  /** The result of phase 1: all voted yes, somebody voted no, or a vote is missing. */
  datatype Verdict = Success | Fail | ClusterFail

  datatype MainPc =
    | Connecting(k: nat)                             // do_connectall: k con messages counted
    | RoundTop                                       // the test of stop_signal in run_server
    | Clearing(k: nat)                               // writing "lost" into the scoreboard
    | Stamping(k: nat)                               // first loop of send_request: beg_write
    | Sending(put: set<nat>, done: set<nat>)         // second loop of send_request
    | Writing(j: nat, put: set<nat>, done: set<nat>) // inside end_write on connection j
    | Checking(j: nat, put: set<nat>, done: set<nat>)
    | Polling(t: nat, total: int)                    // summing votes_count in wait_for_votes
    | Pausing
    | Scanning(k: nat)
    | Zeroing(t: nat)
    | Resuming
    | Halted

  datatype WorkerPc =
    | Top                             // the loop test
    | Resetting                       // saw pause_signal, about to clear its counter
    | Pass                            // inside the loop over its connections
    | Got(j: nat, m: Msg)             // beg_read returned m
    | Posted(j: nat)                  // scoreboard entry written
    | Released(j: nat)                // end_read done
    | Adding(j: nat, v: int)          // counter read as v, not yet written back
    | Exited

  datatype ClientPc =
    | Fresh | HelloSent | WaitRequest | Voting | VoteSent | WaitDecision | Acking | AckSent | Dead

  datatype Client = Client(pc: ClientPc, votes: nat)

  /** `cut` records that main left a loop early because it saw stop_signal, `timedOut` that
      some wait_for_votes timed out, `decisions` the decision of every round that has one;
      the program itself never reads these three. */
  datatype Program = Program(
    pc: MainPc, round: nat, second: bool, status: Verdict, ok: bool,
    board: seq<Kind>, count: seq<int>, pause: bool, stop: bool,
    workers: seq<WorkerPc>, clients: seq<Client>,
    cut: bool, timedOut: bool, decisions: seq<bool>)

  function InitProgram(c: Config): Program {
    Program(Connecting(0), 0, false, Success, true,
            seq(c.n, _ => Lost), seq(c.workers, _ => 0), false, false,
            seq(c.workers, _ => Top), seq(c.n, _ => Client(Fresh, 0)),
            false, false, [])
  }

  datatype MainAct =
    | Connect(j: nat) | Connected | NextRound | Clear | Stamp
    | Pick(j: nat) | EndWrite | Acknowledged | Again | Broken | SendExit
    | Timeout | Poll | Pause | Scan | Zero | Resume

  datatype WorkerAct =
    | Quit | SeePause | SeeGo | Reset | Fetch(j: nat) | EndPass | Post | EndRead | Load | Store

  datatype ClientAct = Hello | Confirm | Receive | Reply | Die

  datatype Act = Main(ma: MainAct) | Worker(t: nat, wa: WorkerAct) | Peer(j: nat, ca: ClientAct) | Stop

  // ---------------------------------------------------------------- main thread

  function Halt(p: Program): Program {
    p.(pc := Halted, stop := true)
  }

  /** The message that send_request puts on every connection. */
  function Outgoing(p: Program): Msg {
    Msg(if !p.second then Request else if p.status == Success then Commit else Cancel, SERVER_ID)
  }

  /** One step of the phase-1 scan; None stands for the protocol-violation branch. */
  function ScanVote(status: Verdict, k: Kind): Option<Verdict> {
    match k
    case VoteYes => Some(status)
    case VoteNo => Some(Fail)
    case Lost => Some(ClusterFail)
    case _ => None
  }

  /** One step of the phase-2 scan: anything but an ack fails the cluster. */
  function ScanAck(ok: bool, k: Kind): bool {
    ok && k == Ack
  }

  predicate AllDone(c: Config, done: set<nat>) {
    forall j :: 0 <= j < c.n ==> j in done
  }

  predicate CanMain(c: Config, p: Program, a: MainAct) {
    match a
    case Connect(j) => p.pc.Connecting? && j < c.n
    case Connected => p.pc.Connecting? && p.pc.k >= c.n
    case NextRound => p.pc.RoundTop?
    case Clear => p.pc.Clearing?
    case Stamp => p.pc.Stamping?
    case Pick(j) => p.pc.Sending? && j < c.n && j !in p.pc.done && !p.stop
    case EndWrite => p.pc.Writing?
    case Acknowledged => p.pc.Checking?
    case Again => p.pc.Checking?
    case Broken => p.pc.Checking?
    case SendExit => p.pc.Sending? && (AllDone(c, p.pc.done) || p.stop)
    case Timeout => p.pc == Polling(0, 0)
    case Poll => p.pc.Polling?
    case Pause => p.pc.Pausing?
    case Scan => p.pc.Scanning?
    case Zero => p.pc.Zeroing?
    case Resume => p.pc.Resuming?
  }

  predicate Shaped(c: Config, p: Program) {
    |p.board| == c.n && |p.count| == c.workers && |p.workers| == c.workers && |p.clients| == c.n
  }

  function ClearStep(c: Config, p: Program): Program
    requires Shaped(c, p) && p.pc.Clearing?
  {
    if p.pc.k < c.n then p.(board := p.board[p.pc.k := Lost], pc := Clearing(p.pc.k + 1))
    else if !p.second then p.(pc := Stamping(0))
    else if p.status == ClusterFail then Halt(p)
    else p.(pc := Stamping(0), decisions := if p.cut then p.decisions else p.decisions + [p.status == Success])
  }

  function ScanStep(c: Config, p: Program): Program
    requires Shaped(c, p) && p.pc.Scanning?
  {
    if p.pc.k >= c.n then p.(pc := Zeroing(0))
    else if p.stop then p.(pc := Zeroing(0), cut := true)
    else if p.second then p.(ok := ScanAck(p.ok, p.board[p.pc.k]), pc := Scanning(p.pc.k + 1))
    else match ScanVote(p.status, p.board[p.pc.k])
      case Some(v) => p.(status := v, pc := Scanning(p.pc.k + 1))
      case None => Halt(p)
  }

  function PollPc(c: Config, p: Program): MainPc
    requires Shaped(c, p) && p.pc.Polling?
  {
    if p.pc.t < c.workers then Polling(p.pc.t + 1, p.pc.total + p.count[p.pc.t])
    else if p.pc.total >= c.n then Pausing
    else Polling(0, 0)
  }

  function Zeroed(c: Config, p: Program): (r: seq<int>)
    requires Shaped(c, p) && p.pc.Zeroing?
    ensures |r| == c.workers
  {
    if p.pc.t < c.workers then p.count[p.pc.t := 0] else p.count
  }

  function ResumeStep(p: Program): Program {
    var q := p.(pause := false);
    if !p.second then q.(second := true, pc := Clearing(0))
    else if !p.ok then Halt(q)
    else q.(second := false, round := p.round + 1, pc := RoundTop)
  }

  function MainNext(c: Config, p: Program, a: MainAct, m: Msg): (q: Program)
    requires Shaped(c, p) && CanMain(c, p, a)
    ensures Shaped(c, q)
  {
    match a
    case Connect(_) => if m.kind == Con then p.(pc := Connecting(p.pc.k + 1)) else Halt(p)
    case Connected => p.(pc := RoundTop)
    case NextRound => if p.stop then Halt(p) else p.(pc := Clearing(0), second := false, status := Success)
    case Clear => ClearStep(c, p)
    case Stamp =>
      var more := p.pc.k < c.n && !p.stop;
      p.(pc := if more then Stamping(p.pc.k + 1) else Sending({}, {}), cut := p.cut || (!more && p.pc.k < c.n))
    case Pick(j) => p.(pc := Writing(j, p.pc.put, p.pc.done))
    case EndWrite => p.(pc := Checking(p.pc.j, p.pc.put + {p.pc.j}, p.pc.done))
    case Acknowledged => p.(pc := Sending(p.pc.put, p.pc.done + {p.pc.j}))
    case Again => p.(pc := Sending(p.pc.put, p.pc.done))
    case Broken => Halt(p)
    case SendExit => p.(pc := Polling(0, 0), cut := p.cut || !AllDone(c, p.pc.done))
    case Timeout => p.(pc := Pausing, timedOut := true)
    case Poll => p.(pc := PollPc(c, p))
    case Pause => p.(pause := true, ok := true, pc := Scanning(0))
    case Scan => ScanStep(c, p)
    case Zero => p.(count := Zeroed(c, p), pc := if p.pc.t < c.workers then Zeroing(p.pc.t + 1) else Resuming)
    case Resume => ResumeStep(p)
  }

  function MainEffect(c: Config, p: Program, a: MainAct): Label
    requires CanMain(c, p, a)
  {
    match a
    case Connect(j) => Drain(j)
    case Stamp => if p.pc.k < c.n && !p.stop then Begin(p.pc.k, Outgoing(p)) else Tau
    case EndWrite => if p.pc.j in p.pc.put then Tau else Put(p.pc.j, Outgoing(p))
    case Acknowledged => Acked(p.pc.j)
    case _ => Tau
  }

  // ------------------------------------------------------------- worker threads

  predicate CanWorker(c: Config, p: Program, t: nat, a: WorkerAct)
    requires Shaped(c, p)
  {
    t < c.workers && !p.pc.Connecting? &&
    match a
    case Quit => p.workers[t].Top? && p.stop
    case SeePause => p.workers[t].Top? && p.pause
    case SeeGo => p.workers[t].Top? && !p.pause
    case Reset => p.workers[t].Resetting?
    case Fetch(j) => p.workers[t].Pass? && j < c.n && j < |c.owner| && c.owner[j] == t
    case EndPass => p.workers[t].Pass?
    case Post => p.workers[t].Got?
    case EndRead => p.workers[t].Posted?
    case Load => p.workers[t].Released?
    case Store => p.workers[t].Adding?
  }

  function WorkerPcNext(c: Config, p: Program, t: nat, a: WorkerAct, m: Msg): WorkerPc
    requires Shaped(c, p) && CanWorker(c, p, t, a)
  {
    var w := p.workers[t];
    match a
    case Quit => Exited
    case SeePause => Resetting
    case SeeGo => Pass
    case Reset => Top
    case Fetch(j) => Got(j, m)
    case EndPass => Top
    case Post => if 1 <= w.m.src <= c.n then Posted(w.j) else Pass
    case EndRead => Released(w.j)
    case Load => Adding(w.j, p.count[t])
    case Store => Pass
  }

  function BoardNext(c: Config, p: Program, t: nat, a: WorkerAct): (b: seq<Kind>)
    requires Shaped(c, p) && CanWorker(c, p, t, a)
    ensures |b| == c.n
  {
    var w := p.workers[t];
    if a == Post && 1 <= w.m.src <= c.n then p.board[w.m.src - 1 := w.m.kind] else p.board
  }

  function CountNext(c: Config, p: Program, t: nat, a: WorkerAct): (r: seq<int>)
    requires Shaped(c, p) && CanWorker(c, p, t, a)
    ensures |r| == c.workers
  {
    match a
    case Reset => p.count[t := 0]
    case Store => p.count[t := p.workers[t].v + 1]
    case _ => p.count
  }

  function WorkerNext(c: Config, p: Program, t: nat, a: WorkerAct, m: Msg): (q: Program)
    requires Shaped(c, p) && CanWorker(c, p, t, a)
    ensures Shaped(c, q)
  {
    p.(workers := p.workers[t := WorkerPcNext(c, p, t, a, m)],
       board := BoardNext(c, p, t, a), count := CountNext(c, p, t, a))
  }

  function WorkerEffect(c: Config, p: Program, t: nat, a: WorkerAct): Label
    requires Shaped(c, p) && CanWorker(c, p, t, a)
  {
    match a
    case Fetch(j) => Take(j)
    case EndRead => Release(p.workers[t].j)
    case _ => Tau
  }

  // -------------------------------------------------------------------- clients

  predicate CanClient(c: Config, p: Program, j: nat, a: ClientAct)
    requires Shaped(c, p)
  {
    j < c.n && j < |c.ids| &&
    match a
    case Hello => p.clients[j].pc.Fresh?
    case Confirm => p.clients[j].pc in {HelloSent, VoteSent, AckSent}
    case Receive => p.clients[j].pc in {WaitRequest, WaitDecision}
    case Reply => p.clients[j].pc in {Voting, Acking}
    case Die => true
  }

  function ClientStep(cl: Client, a: ClientAct, m: Msg): Client {
    match a
    case Hello => cl.(pc := HelloSent)
    case Confirm => cl.(pc := if cl.pc == VoteSent then WaitDecision else WaitRequest)
    case Receive =>
      if cl.pc == WaitRequest then (if m.kind == Request then cl.(pc := Voting) else cl.(pc := Dead))
      else (if m.kind == Commit || m.kind == Cancel then cl.(pc := Acking) else cl.(pc := Dead))
    case Reply => if cl.pc == Voting then Client(VoteSent, cl.votes + 1) else cl.(pc := AckSent)
    case Die => cl.(pc := Dead)
  }

  function ClientNext(c: Config, p: Program, j: nat, a: ClientAct, m: Msg): (q: Program)
    requires Shaped(c, p) && CanClient(c, p, j, a)
    ensures Shaped(c, q)
  {
    p.(clients := p.clients[j := ClientStep(p.clients[j], a, m)])
  }

  function ClientEffect(c: Config, p: Program, j: nat, a: ClientAct): Label
    requires Shaped(c, p) && CanClient(c, p, j, a)
  {
    var cl := p.clients[j];
    match a
    case Hello => ClientPut(j, Msg(Con, c.ids[j]))
    case Confirm => ClientAcked(j)
    case Receive => ClientTake(j)
    case Reply =>
      if cl.pc == Voting then ClientPut(j, Msg(if c.vote(j, cl.votes) then VoteYes else VoteNo, c.ids[j]))
      else ClientPut(j, Msg(Ack, c.ids[j]))
    case Die => Tau
  }

  // ------------------------------------------------------------------ all steps

  predicate Can(c: Config, p: Program, a: Act)
    requires Shaped(c, p)
  {
    match a
    case Main(ma) => CanMain(c, p, ma)
    case Worker(t, wa) => CanWorker(c, p, t, wa)
    case Peer(j, ca) => CanClient(c, p, j, ca)
    case Stop => true
  }

  function Next(c: Config, p: Program, a: Act, m: Msg): (q: Program)
    requires Shaped(c, p) && Can(c, p, a)
    ensures Shaped(c, q)
  {
    match a
    case Main(ma) => MainNext(c, p, ma, m)
    case Worker(t, wa) => WorkerNext(c, p, t, wa, m)
    case Peer(j, ca) => ClientNext(c, p, j, ca, m)
    case Stop => p.(stop := true)
  }

  function Effect(c: Config, p: Program, a: Act): Label
    requires Shaped(c, p) && Can(c, p, a)
  {
    match a
    case Main(ma) => MainEffect(c, p, ma)
    case Worker(t, wa) => WorkerEffect(c, p, t, wa)
    case Peer(j, ca) => ClientEffect(c, p, j, ca)
    case Stop => Tau
  }
}
